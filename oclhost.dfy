/**
 * src/host/src/opencl_utils.c: the older copy of the OpenCL helpers. Its
 * findPlatform has no guard on the search string, and a failing query or
 * a missing binary ends the process with EXIT_FAILURE instead of
 * returning NULL.
 */
module HostOpenclUtils {
  import opened Common
  import opened Text
  import opened OpenclUtils

  /** A call either returns a value or ends the process through exit(status). */
  datatype Outcome<T> = Returned(value: T) | Exit(status: int)

  const ExitFailure: int := 1

  /**
   * With an empty search string, the first platform whose name queries
   * succeed is a match: strstr finds the empty string in every name.
   */
  lemma EmptyNameMatchesFirstPlatform(platforms: seq<PlatformInfo>)
    requires |platforms| > 0 && QueriesOk(platforms[0])
    ensures ScanFrom(platforms, [], 0) == Match(0)
  {
    assert Lower([]) == [];
    ContainsIffOccurs(Lower(platforms[0].name), []);
  }

  /** findPlatform(platform_name); the result is the index, in query order, of the platform returned. */
  method FindPlatform(name: string, countQueryOk: bool, idsQueryOk: bool, platforms: seq<PlatformInfo>)
    returns (r: Outcome<Option<nat>>)
    ensures !(countQueryOk && idsQueryOk) ==> r == Exit(ExitFailure)
    ensures countQueryOk && idsQueryOk ==>
      r == (match ScanFrom(platforms, name, 0)
            case Match(i) => Returned(Some(i))
            case QueryFailed(_) => Exit(ExitFailure)
            case NoMatch => Returned(None))
  {
    if !countQueryOk {
      return Exit(ExitFailure);
    }
    if !idsQueryOk {
      return Exit(ExitFailure);
    }
    var search := Lower(name);
    var i := 0;
    while i < |platforms|
      invariant 0 <= i <= |platforms|
      invariant ScanFrom(platforms, name, 0) == ScanFrom(platforms, name, i)
    {
      if !platforms[i].sizeQueryOk {
        return Exit(ExitFailure);
      }
      if !platforms[i].nameQueryOk {
        return Exit(ExitFailure);
      }
      var nameLc := Lower(platforms[i].name);
      if Contains(nameLc, search) {
        return Returned(Some(i));
      }
      i := i + 1;
    }
    return Returned(None);
  }

  /** getDevices(pid, device_type, &num_devices): no argument guard; a failing query exits. */
  function GetDevices(countStatus: int, idsStatus: int, found: seq<nat>): (r: Outcome<seq<nat>>)
    ensures r.Exit? <==> countStatus != Success || idsStatus != Success
    ensures r.Exit? ==> r.status == ExitFailure
    ensures r.Returned? ==> r.value == found
  {
    if countStatus != Success then Exit(ExitFailure)
    else if idsStatus != Success then Exit(ExitFailure)
    else Returned(found)
  }

  /**
   * getProgramWithBinary(context, devices, num_device, path): no guard on
   * the device count; a missing file, an empty or unloadable binary or a
   * failing clCreateProgramWithBinary exits.
   */
  function GetProgramWithBinary(fileReadable: bool, binSize: nat, createStatus: int, program: nat): (r: Outcome<nat>)
    ensures r.Exit? <==> !fileReadable || binSize == 0 || createStatus != Success
    ensures r.Exit? ==> r.status == ExitFailure
    ensures r.Returned? ==> r.value == program
  {
    if !fileReadable then Exit(ExitFailure)
    else if binSize == 0 then Exit(ExitFailure)
    else if createStatus != Success then Exit(ExitFailure)
    else Returned(program)
  }

  /**
   * Where the api copy answers NULL, this copy exits, and where the api
   * copy returns a program or devices, this copy returns the same ones.
   */
  lemma FailuresBecomeExits(numDevices: nat, fileReadable: bool, binSize: nat, createStatus: int, program: nat,
                            countStatus: int, idsStatus: int, found: seq<nat>)
    requires numDevices > 0
    ensures OpenclUtils.GetProgramWithBinary(numDevices, fileReadable, binSize, createStatus, program).None?
      <==> GetProgramWithBinary(fileReadable, binSize, createStatus, program).Exit?
    ensures OpenclUtils.GetDevices(false, 1, countStatus, idsStatus, found).None?
      <==> GetDevices(countStatus, idsStatus, found).Exit?
  {
  }

  /** What this printError prints: a fixed message, or "UNKNOWN ERROR" with the code. */
  datatype HostErrorText = Message(text: string) | UnknownError(code: int)

  /** The codes this printError has a message for, by their CL_* values. */
  predicate HostListed(code: int)
  {
    code in {-32, -33, -34, -6, -2, -35, -44, -42, -46, -47, -30, -61, -37, -36, -38, -4, -49, -50, -51, -45, -48, -52, -54}
  }

  /** printError's switch; the CL_* names are replaced by their values. */
  function ErrorMessage(code: int): (r: HostErrorText)
    ensures r.UnknownError? <==> !HostListed(code)
    ensures r.UnknownError? ==> r.code == code
  {
    match code
    case -32 => Message("CL_PLATFORM NOT FOUND OR INVALID ")
    case -33 => Message("CL_DEVICE NOT FOUND OR INVALID OR DOESN'T MATCH THE PLATFORM ")
    case -34 => Message("CL_CONTEXT INVALID ")
    case -6 => Message("FAILURE TO ALLOCATE RESOURCES BY OPENCL")
    case -2 => Message("CL_DEVICE NOT AVAILABLE ALTHOUGH FOUND")
    case -35 => Message("CL_QUEUE PROPERTIES INVALID")
    case -44 => Message("CL_PROGRAM INVALID")
    case -42 => Message("CL_BINARY INVALID")
    case -46 => Message("CL_KERNEL_NAME INVALID")
    case -47 => Message("CL_KERNEL_DEFN INVALID")
    case -30 => Message("CL_VALUE INVALID")
    case -61 => Message("CL_BUFFER_SIZE INVALID")
    case -37 => Message("CL_HOST_PTR INVALID")
    case -36 => Message("CL_COMMAND_QUEUE INVALID")
    case -38 => Message("CL_MEM_OBJECT INVALID")
    case -4 => Message("CL_MEM_OBJECT_ALLOCATION INVALID")
    case -49 => Message("CL_ARG_INDEX INVALID")
    case -50 => Message("CL_ARG_VALUE INVALID")
    case -51 => Message("CL_ARG_SIZE INVALID")
    case -45 => Message("CL_PROGRAM_EXEC INVALID")
    case -48 => Message("CL_KERNEL INVALID")
    case -52 => Message("CL_KERNEL_ARG INVALID")
    case -54 => Message("CL_WORK_GROUP_SIZE INVALID")
    case _ => UnknownError(code)
  }

  /** Every code this copy names, the api copy names too; the api copy names more. */
  lemma HostNamesFewerCodes(code: int)
    ensures ErrorMessage(code).Message? ==> ErrorName(code).Named?
    ensures ErrorName(-1).Named? && ErrorMessage(-1).UnknownError?
  {
  }
}
