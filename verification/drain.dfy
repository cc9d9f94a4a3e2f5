/** Properties of the replay queue over many steps: draining in order,
    skipping corrupt lines, pausing on failure and resuming on the next
    export, surviving a restart, and the file-suffix invariant over any
    sequence of operations. */
module Drain {
  import opened Options
  import opened Journal
  import opened Schema
  import opened Upload
  import opened Replay

  datatype Run = Run(final: State, sent: seq<Entry>)

  /** Let scheduled callbacks fire up to `n` times, every send succeeding;
      stops early once nothing is scheduled. Collects what was sent. */
  function DrainAll(s: State, decode: Decoder, n: nat): Run
    decreases n
  {
    if n == 0 || s.timers == 0 then Run(s, [])
    else
      var t := Fire(s, decode, Delivered);
      var rest := DrainAll(t.next, decode, n - 1);
      Run(rest.final, ToSeq(t.sent) + rest.sent)
  }

  /** The entries the lines decode to, in order, schema references
      rewritten, undecodable lines left out. */
  function Sendable(lines: seq<string>, decode: Decoder): seq<Entry>
  {
    if lines == [] then []
    else match decode(lines[0])
      case Parsed(e) => [Rewritten(e)] + Sendable(lines[1..], decode)
      case _ => Sendable(lines[1..], decode)
  }

  predicate NoMalformed(lines: seq<string>, decode: Decoder) {
    forall i :: 0 <= i < |lines| ==> !decode(lines[i]).Malformed?
  }

  /** FIFO: with every send succeeding, one tick per queued line empties the
      queue, sends exactly the decodable entries in queue order, and leaves
      the chain of callbacks as it found it. */
  lemma {:induction false} DrainDelivers(s: State, decode: Decoder)
    requires s.open && s.timers > 0
    requires NoMalformed(s.log, decode)
    ensures DrainAll(s, decode, |s.log|).final.log == []
    ensures DrainAll(s, decode, |s.log|).sent == Sendable(s.log, decode)
    ensures DrainAll(s, decode, |s.log|).final.timers == s.timers
    ensures DrainAll(s, decode, |s.log|).final.open
    ensures Inv(s) ==> Inv(DrainAll(s, decode, |s.log|).final)
    decreases |s.log|
  {
    if s.log != [] {
      var t := Fire(s, decode, Delivered);
      assert t.next.log == s.log[1..];
      assert NoMalformed(t.next.log, decode) by {
        forall i | 0 <= i < |t.next.log| ensures !decode(t.next.log[i]).Malformed? {
          assert t.next.log[i] == s.log[i + 1];
        }
      }
      DrainDelivers(t.next, decode);
    }
  }

  /** Once drained, the next tick blanks the status and schedules nothing. */
  lemma DrainedGoesIdle(s: State, decode: Decoder, o: Outcome)
    requires s.open && s.timers > 0 && s.log == []
    ensures Fire(s, decode, o).next.status == Blank
    ensures Fire(s, decode, o).next.timers == s.timers - 1
    ensures Fire(s, decode, o).next.log == [] && Fire(s, decode, o).sent == None
  {
  }

  /** The envelope posted for a tick's head entry carries the rewrite of
      the stored schema reference and the stored payload unchanged, and is
      the same whatever the send's outcome. */
  lemma PostedEnvelope(s: State, decode: Decoder, e: Entry, o: Outcome, c: Config, minted: string,
                       appName: string, appVersion: string, platform: string)
    requires s.open && s.log != []
    requires decode(s.log[0]) == Parsed(e)
    ensures SendReplay(s, decode, o).sent.Some?
    ensures
      var posted := SendReplay(s, decode, o).sent.value;
      var env := Build(c, posted.cmdr, posted.msg, minted, appName, appVersion, platform).envelope;
      && env.schemaRef == Rewrite(e.msg.schemaRef)
      && env.message == e.msg.message
      && env.header.uploaderId == ChooseUploader(c, e.cmdr, minted).uploaderId
  {
  }

  /** A corrupt line between two good ones: both good entries are sent, in
      order, the corrupt one is dropped, and all three lines leave the queue. */
  lemma CorruptEntrySkipped(s: State, decode: Decoder, e1: Entry, e2: Entry)
    requires s.open && s.timers > 0 && |s.log| == 3
    requires decode(s.log[0]) == Parsed(e1)
    requires decode(s.log[1]) == Undecodable
    requires decode(s.log[2]) == Parsed(e2)
    ensures DrainAll(s, decode, 3).sent == [Rewritten(e1), Rewritten(e2)]
    ensures DrainAll(s, decode, 3).final.log == []
  {
    DrainDelivers(s, decode);
    assert s.log[1..][1..][1..] == [];
  }

  /** Pause and resume: a failed send keeps the whole queue, shows an error
      and ends the callback chain; an export that arms the timer restarts
      it, and the next tick retries the same head entry. */
  lemma PauseThenResume(s: State, decode: Decoder, e: Entry, failure: Outcome,
                        cmdr: string, isBeta: bool, entry: seq<Field>, delayed: bool,
                        encode: Encoder)
    requires s.open && s.timers == 1 && s.log != []
    requires decode(s.log[0]) == Parsed(e)
    requires !failure.Delivered?
    requires !TimerRuleRaises(entry) && ArmsTimer(entry, delayed)
    ensures Fire(s, decode, failure).next.log == s.log
    ensures Fire(s, decode, failure).next.timers == 0
    ensures Fire(s, decode, failure).next.status ==
              (if failure.RequestFailed? then CannotConnect else Failed(failure.reason))
    ensures
      var paused := Fire(s, decode, failure).next;
      var resumed := Enqueue(paused, cmdr, isBeta, entry, false, delayed, encode).state;
      && resumed.timers == 1
      && resumed.log[..|s.log|] == s.log
      && Fire(resumed, decode, Delivered).sent == Some(Rewritten(e))
      && Fire(resumed, decode, Delivered).next.log == resumed.log[1..]
  {
    var paused := Fire(s, decode, failure).next;
    var resumed := Enqueue(paused, cmdr, isBeta, entry, false, delayed, encode).state;
    assert resumed.log[..|s.log|] == s.log;
    assert resumed.log[0] == s.log[0];
  }

  /** A failed send ends only the callback chain it ran in. When another
      callback is already scheduled (every arming export adds one, even
      while a chain runs), that callback retries the same head without any
      new export, and a successful send pops it. */
  lemma FailurePausesOneChain(s: State, decode: Decoder, e: Entry, failure: Outcome)
    requires s.open && s.timers >= 2 && s.log != []
    requires decode(s.log[0]) == Parsed(e)
    requires !failure.Delivered?
    ensures
      var paused := Fire(s, decode, failure).next;
      && paused.log == s.log
      && paused.timers == s.timers - 1
      && Fire(paused, decode, Delivered).sent == Some(Rewritten(e))
      && Fire(paused, decode, Delivered).next.log == s.log[1..]
  {
  }

  /** At-least-once across a restart after `close`: a new process that
      loads the file finds every entry that was still queued, in order, at
      the end of its list (possibly after entries already sent but not yet
      compacted away). */
  lemma RestartKeepsPending(s: State)
    requires Inv(s)
    ensures IsSuffix(s.log, Load(Start(Close(s).file), true).state.log)
    ensures Load(Start(Close(s).file), true).state.log == s.file
  {
  }

  // ---------------------------------------------------------------------
  // Arbitrary sequences of operations.

  datatype Op =
    | DoLoad(acquired: bool)
    | DoClose
    | DoExport(cmdr: string, isBeta: bool, entry: seq<Field>, acquired: bool, delayed: bool)
    | DoFire(outcome: Outcome)

  /** One operation; a callback can only fire if one is scheduled. */
  function Step(s: State, op: Op, decode: Decoder, encode: Encoder): State
  {
    match op
    case DoLoad(a) => Load(s, a).state
    case DoClose => Close(s)
    case DoExport(c, b, e, a, d) => Enqueue(s, c, b, e, a, d, encode).state
    case DoFire(o) => if s.timers > 0 then Fire(s, decode, o).next else s
  }

  function Trace(s: State, ops: seq<Op>, decode: Decoder, encode: Encoder): State
    decreases |ops|
  {
    if ops == [] then s else Trace(Step(s, ops[0], decode, encode), ops[1..], decode, encode)
  }

  /** The list is the tail of the file's lines after any sequence of
      operations from a fresh start. */
  lemma {:induction false} InvAlways(s: State, ops: seq<Op>, decode: Decoder, encode: Encoder)
    requires Inv(s)
    ensures Inv(Trace(s, ops, decode, encode))
    decreases |ops|
  {
    if ops != [] {
      InvAlways(Step(s, ops[0], decode, encode), ops[1..], decode, encode);
    }
  }

  /** `b` is `a` with a prefix of at most one entry removed and entries added
      at the tail. */
  predicate KeepsOrder(a: seq<string>, b: seq<string>) {
    a <= b || (a != [] && a[1..] <= b)
  }

  /** Entries are never reordered: every operation but `load` (which
      replaces the list with the file's lines) removes at most the head and
      adds only at the tail. */
  lemma StepKeepsOrder(s: State, op: Op, decode: Decoder, encode: Encoder)
    requires !op.DoLoad?
    requires !op.DoExport? || s.open
    ensures KeepsOrder(s.log, Step(s, op, decode, encode).log)
  {
  }
}
