/**
 * In-order command queues, reduced to what the host code relies on when
 * kernels share a device buffer. Commands on one queue run one after
 * another in the order they were enqueued; commands on different queues
 * may overlap. The host works in phases: it enqueues a group of commands
 * and then calls clFinish on every queue it used, so nothing from one
 * phase is still running when the next phase starts.
 */
module Queues {
  import opened Common

  /** An enqueued command: its queue and the device buffer it reads and/or writes. */
  datatype Command<B> = Command(queue: nat, input: Option<B>, output: Option<B>)

  /** One phase: commands in issue order, then clFinish on each listed queue. */
  datatype Phase<B> = Phase(commands: seq<Command<B>>, finished: seq<nat>)

  /** `c` writes buffer `b`. */
  predicate WritesTo<B(==)>(c: Command<B>, b: Option<B>)
  {
    c.output.Some? && c.output == b
  }

  /**
   * Two commands race when they sit on different queues and one writes a
   * buffer the other reads or writes.
   */
  predicate Races<B(==)>(c: Command<B>, d: Command<B>)
  {
    c.queue != d.queue && (WritesTo(c, d.input) || WritesTo(c, d.output) || WritesTo(d, c.input))
  }

  /** Every command of the phase is on a queue the phase finishes. */
  predicate Completes<B>(ph: Phase<B>)
  {
    forall i :: 0 <= i < |ph.commands| ==> ph.commands[i].queue in ph.finished
  }

  /**
   * A phase is race-free when it completes and no two of its commands race:
   * any two commands that share a buffer, one of them writing, run on one
   * queue and therefore in issue order.
   */
  predicate RaceFree<B(==)>(ph: Phase<B>)
  {
    && Completes(ph)
    && forall i, j :: 0 <= i < j < |ph.commands| ==> !Races(ph.commands[i], ph.commands[j])
  }

  /** Race freedom of a whole run: every phase is race-free. */
  predicate AllRaceFree<B(==)>(phases: seq<Phase<B>>)
  {
    forall p :: 0 <= p < |phases| ==> RaceFree(phases[p])
  }

  /**
   * A phase in which only command r reads a buffer and only command w
   * writes one, and not the buffer r reads, is race-free once it completes.
   */
  lemma {:induction false} OneReaderOneWriter<B>(ph: Phase<B>, r: nat, w: nat)
    requires Completes(ph) && r < |ph.commands| && w < |ph.commands|
    requires forall i :: 0 <= i < |ph.commands| && i != r ==> ph.commands[i].input.None?
    requires forall i :: 0 <= i < |ph.commands| && i != w ==> ph.commands[i].output.None?
    requires ph.commands[r].input != ph.commands[w].output
    ensures RaceFree(ph)
  {
    var cs := ph.commands;
    forall i, j | 0 <= i < j < |cs|
      ensures !Races(cs[i], cs[j])
    {
      assert cs[i].output.Some? ==> i == w;
      assert cs[j].output.Some? ==> j == w;
      assert cs[i].input.Some? ==> i == r;
      assert cs[j].input.Some? ==> j == r;
    }
  }
}
