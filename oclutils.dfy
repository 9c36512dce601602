/**
 * api/src/opencl_utils.c: how findPlatform picks a platform, the guards
 * of getDevices and getProgramWithBinary, and the printError table. The
 * answers of the OpenCL queries are inputs: whether each query succeeds,
 * and the platform names in query order.
 */
module OpenclUtils {
  import opened Common
  import opened Text

  /** One platform as findPlatform sees it: the two CL_PLATFORM_NAME queries and the name they return. */
  datatype PlatformInfo = PlatformInfo(sizeQueryOk: bool, nameQueryOk: bool, name: string)

  predicate QueriesOk(p: PlatformInfo)
  {
    p.sizeQueryOk && p.nameQueryOk
  }

  /** `search` is a case-insensitive substring of the platform's name. */
  predicate NameMatches(p: PlatformInfo, search: string)
  {
    Contains(Lower(p.name), Lower(search))
  }

  /** How the scan over the platforms ends: at a match, at a failing name query, or after the last platform. */
  datatype ScanResult = Match(index: nat) | QueryFailed(index: nat) | NoMatch

  /** Platforms before `stop` all answered and none matched. */
  predicate PassedOver(platforms: seq<PlatformInfo>, search: string, from: nat, stop: nat)
  {
    forall j :: from <= j < stop && j < |platforms| ==>
      QueriesOk(platforms[j]) && !NameMatches(platforms[j], search)
  }

  /** The platform loop of findPlatform from platform i on. */
  function ScanFrom(platforms: seq<PlatformInfo>, search: string, i: nat): (r: ScanResult)
    ensures r.Match? ==>
      i <= r.index < |platforms| && QueriesOk(platforms[r.index]) && NameMatches(platforms[r.index], search)
      && PassedOver(platforms, search, i, r.index)
    ensures r.QueryFailed? ==>
      i <= r.index < |platforms| && !QueriesOk(platforms[r.index]) && PassedOver(platforms, search, i, r.index)
    ensures r.NoMatch? ==> PassedOver(platforms, search, i, |platforms|)
    decreases |platforms| - i
  {
    if i >= |platforms| then NoMatch
    else if !QueriesOk(platforms[i]) then QueryFailed(i)
    else if NameMatches(platforms[i], search) then Match(i)
    else ScanFrom(platforms, search, i + 1)
  }

  /** The scan's outcome is the first platform that fails a query or matches, in query order. */
  lemma {:induction false} ScanIsFirst(platforms: seq<PlatformInfo>, search: string, k: nat)
    requires k < |platforms| && PassedOver(platforms, search, 0, k)
    requires !QueriesOk(platforms[k]) || NameMatches(platforms[k], search)
    ensures ScanFrom(platforms, search, 0) == (if QueriesOk(platforms[k]) then Match(k) else QueryFailed(k))
  {
    var r := ScanFrom(platforms, search, 0);
    if r.Match? || r.QueryFailed? {
      if r.index < k {
        assert false;
      } else if r.index > k {
        assert false;
      }
    } else {
      assert false;
    }
  }

  /**
   * findPlatform(platform_name). `name` is None for a NULL pointer; the
   * result is the index, in query order, of the platform returned, or
   * None for NULL.
   */
  method FindPlatform(name: Option<string>, countQueryOk: bool, idsQueryOk: bool, platforms: seq<PlatformInfo>)
    returns (pid: Option<nat>)
    ensures name.None? || name.value == [] ==> pid == None
    ensures name.Some? && name.value != [] && !(countQueryOk && idsQueryOk) ==> pid == None
    ensures name.Some? && name.value != [] && countQueryOk && idsQueryOk ==>
      pid == (match ScanFrom(platforms, name.value, 0) case Match(i) => Some(i) case _ => None)
  {
    if name.None? || |name.value| == 0 {
      return None;
    }
    if !countQueryOk {
      return None;
    }
    if !idsQueryOk {
      return None;
    }
    var search := Lower(name.value);
    var i := 0;
    while i < |platforms|
      invariant 0 <= i <= |platforms|
      invariant ScanFrom(platforms, name.value, 0) == ScanFrom(platforms, name.value, i)
    {
      if !platforms[i].sizeQueryOk {
        return None;
      }
      if !platforms[i].nameQueryOk {
        return None;
      }
      var nameLc := Lower(platforms[i].name);
      if Contains(nameLc, search) {
        return Some(i);
      }
      i := i + 1;
    }
    return None;
  }

  /** CL_SUCCESS. */
  const Success: int := 0

  /**
   * getDevices(pid, device_type, &num_devices): NULL for a NULL platform,
   * a zero device type or a failing query; otherwise the ids found.
   */
  function GetDevices(pidNull: bool, deviceType: bv64, countStatus: int, idsStatus: int, found: seq<nat>): (r: Option<seq<nat>>)
    ensures r.None? <==> pidNull || deviceType == 0 || countStatus != Success || idsStatus != Success
    ensures r.Some? ==> r.value == found
  {
    if pidNull || deviceType == 0 then None
    else if countStatus != Success then None
    else if idsStatus != Success then None
    else Some(found)
  }

  /**
   * getProgramWithBinary(context, devices, num_devices, path): NULL for no
   * devices, an unreadable file, an empty or unloadable binary, or a
   * failing clCreateProgramWithBinary; `binSize` is what loadBinary
   * returns.
   */
  function GetProgramWithBinary(numDevices: nat, fileReadable: bool, binSize: nat, createStatus: int, program: nat): (r: Option<nat>)
    ensures r.None? <==> numDevices == 0 || !fileReadable || binSize == 0 || createStatus != Success
    ensures r.Some? ==> r.value == program
  {
    if numDevices == 0 then None
    else if !fileReadable then None
    else if binSize == 0 then None
    else if createStatus != Success then None
    else Some(program)
  }

  /** What printError prints: a fixed name, or the catch-all with the code. */
  datatype ErrorText = Named(text: string) | Unrecognized(code: int)

  /** The codes printError has a name for: -1..-19, -30..-70, -1001 and -1094..-1097. */
  predicate ApiListed(code: int)
  {
    (-19 <= code <= -1) || (-70 <= code <= -30) || code == -1001 || (-1097 <= code <= -1094)
  }

  /**
   * printError's switch, by code range: -1..-19, -30..-70, and the
   * extension codes -1001 and -1094..-1097.
   */
  function ErrorName(code: int): (r: ErrorText)
    ensures r.Unrecognized? <==> !ApiListed(code)
    ensures r.Unrecognized? ==> r.code == code
  {
    if -19 <= code <= -1 then StatusErrorName(code)
    else if -70 <= code <= -30 then InvalidErrorName(code)
    else if code == -1001 || (-1097 <= code <= -1094) then ExtensionErrorName(code)
    else Unrecognized(code)
  }

  /** Names of the runtime status codes -1..-19. */
  function StatusErrorName(code: int): (r: ErrorText)
    requires -19 <= code <= -1
    ensures r.Named?
  {
    match code
    case -1 => Named("CL_DEVICE_NOT_FOUND ")
    case -2 => Named("CL_DEVICE_NOT_AVAILABLE ")
    case -3 => Named("CL_COMPILER_NOT_AVAILABLE ")
    case -4 => Named("CL_MEM_OBJECT_ALLOCATION_FAILURE ")
    case -5 => Named("CL_OUT_OF_RESOURCES ")
    case -6 => Named("CL_OUT_OF_HOST_MEMORY ")
    case -7 => Named("CL_PROFILING_INFO_NOT_AVAILABLE ")
    case -8 => Named("CL_MEM_COPY_OVERLAP ")
    case -9 => Named("CL_IMAGE_FORMAT_MISMATCH ")
    case -10 => Named("CL_IMAGE_FORMAT_NOT_SUPPORTED ")
    case -11 => Named("CL_BUILD_PROGRAM_FAILURE ")
    case -12 => Named("CL_MAP_FAILURE ")
    case -13 => Named("CL_MISALIGNED_SUB_BUFFER_OFFSET ")
    case -14 => Named("CL_EXEC_STATUS_ERROR_FOR_EVENTS_IN_WAIT_LIST ")
    case -15 => Named("CL_COMPILE_PROGRAM_FAILURE ")
    case -16 => Named("CL_LINKER_NOT_AVAILABLE ")
    case -17 => Named("CL_LINK_PROGRAM_FAILURE ")
    case -18 => Named("CL_DEVICE_PARTITION_FAILED ")
    case -19 => Named("CL_KERNEL_ARG_INFO_NOT_AVAILABLE ")
    case _ => Unrecognized(code)
  }

  /** Names of the CL_INVALID_* codes -30..-70. */
  function InvalidErrorName(code: int): (r: ErrorText)
    requires -70 <= code <= -30
    ensures r.Named?
  {
    match code
    case -30 => Named("CL_INVALID_VALUE ")
    case -31 => Named("CL_INVALID_DEVICE_TYPE ")
    case -32 => Named("CL_INVALID_PLATFORM ")
    case -33 => Named("CL_INVALID_DEVICE ")
    case -34 => Named("CL_INVALID_CONTEXT ")
    case -35 => Named("CL_INVALID_QUEUE_PROPERTIES ")
    case -36 => Named("CL_INVALID_COMMAND_QUEUE ")
    case -37 => Named("CL_INVALID_HOST_PTR ")
    case -38 => Named("CL_INVALID_MEM_OBJECT ")
    case -39 => Named("CL_INVALID_IMAGE_FORMAT_DESCRIPTOR ")
    case -40 => Named("CL_INVALID_IMAGE_SIZE ")
    case -41 => Named("CL_INVALID_SAMPLER ")
    case -42 => Named("CL_INVALID_BINARY ")
    case -43 => Named("CL_INVALID_BUILD_OPTIONS ")
    case -44 => Named("CL_INVALID_PROGRAM ")
    case -45 => Named("CL_INVALID_PROGRAM_EXECUTABLE ")
    case -46 => Named("CL_INVALID_KERNEL_NAME ")
    case -47 => Named("CL_INVALID_KERNEL_DEFINITION ")
    case -48 => Named("CL_INVALID_KERNEL ")
    case -49 => Named("CL_INVALID_ARG_INDEX ")
    case -50 => Named("CL_INVALID_ARG_VALUE ")
    case -51 => Named("CL_INVALID_ARG_SIZE ")
    case -52 => Named("CL_INVALID_KERNEL_ARGS ")
    case -53 => Named("CL_INVALID_WORK_DIMENSION ")
    case -54 => Named("CL_INVALID_WORK_GROUP_SIZE ")
    case -55 => Named("CL_INVALID_WORK_ITEM_SIZE ")
    case -56 => Named("CL_INVALID_GLOBAL_OFFSET ")
    case -57 => Named("CL_INVALID_EVENT_WAIT_LIST ")
    case -58 => Named("CL_INVALID_EVENT ")
    case -59 => Named("CL_INVALID_OPERATION ")
    case -60 => Named("CL_INVALID_GL_OBJECT ")
    case -61 => Named("CL_INVALID_BUFFER_SIZE ")
    case -62 => Named("CL_INVALID_MIP_LEVEL ")
    case -63 => Named("CL_INVALID_GLOBAL_WORK_SIZE ")
    case -64 => Named("CL_INVALID_PROPERTY ")
    case -65 => Named("CL_INVALID_IMAGE_DESCRIPTOR ")
    case -66 => Named("CL_INVALID_COMPILER_OPTIONS ")
    case -67 => Named("CL_INVALID_LINKER_OPTIONS ")
    case -68 => Named("CL_INVALID_DEVICE_PARTITION_COUNT ")
    case -69 => Named("CL_INVALID_PIPE_SIZE ")
    case -70 => Named("CL_INVALID_DEVICE_QUEUE ")
    case _ => Unrecognized(code)
  }

  /** Names of the extension codes -1001 and -1094..-1097. */
  function ExtensionErrorName(code: int): (r: ErrorText)
    requires code == -1001 || (-1097 <= code <= -1094)
    ensures r.Named?
  {
    match code
    case -1001 => Named("CL_PLATFORM_NOT_FOUND_KHR ")
    case -1094 => Named("CL_INVALID_ACCELERATOR_INTEL ")
    case -1095 => Named("CL_INVALID_ACCELERATOR_TYPE_INTEL ")
    case -1096 => Named("CL_INVALID_ACCELERATOR_DESCRIPTOR_INTEL ")
    case -1097 => Named("CL_ACCELERATOR_TYPE_NOT_SUPPORTED_INTEL ")
    case _ => Unrecognized(code)
  }
}
