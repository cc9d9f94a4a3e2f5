/** Two places where the replay queue does not do what the code's own
    comments say (line 41: the file is updated "roughly every 10 seconds";
    line 136: a bad line is discarded "and continue"), each shown on the
    code as written and paired with a corrected definition and the property
    the correction restores. */
module Findings {
  import opened Options
  import opened Journal
  import opened Schema
  import opened Upload
  import opened Replay
  import opened Drain

  // ---------------------------------------------------------------------
  // 1. Compaction is keyed on the remaining queue length, not on the
  //    number of sends, so the lines already sent but still in the file
  //    (and re-sent after a restart) are not bounded by `ReplayFlush`.

  /** One export followed by one successful send, as the code does it. */
  function Cycle(s: State, line: string): (r: State)
    requires s.open && Inv(s)
    ensures r.open && Inv(r)
    ensures r.log == (s.log + [line])[1..]
  {
    PopHead(Append(s, line))
  }

  /** `Cycle` is what the state machine does: an export followed by a fired
      callback whose send succeeds, with a decodable head, has exactly the
      list and file of `Cycle` on the exported line, whether or not the
      export armed a timer. */
  lemma CycleIsExportThenSend(s: State, decode: Decoder, cmdr: string, isBeta: bool,
                              entry: seq<Field>, acquired: bool, delayed: bool, encode: Encoder)
    requires s.open && Inv(s) && s.timers > 0 && s.log != []
    requires decode(s.log[0]).Parsed?
    ensures
      var line := encode(Entry(cmdr, Msg(JournalSchema(isBeta), Obj(entry))));
      var exported := Enqueue(s, cmdr, isBeta, entry, acquired, delayed, encode).state;
      && exported.timers > 0
      && Fire(exported, decode, Delivered).next.log == Cycle(s, line).log
      && Fire(exported, decode, Delivered).next.file == Cycle(s, line).file
  {
  }

  function Cycles(s: State, lines: seq<string>): (r: State)
    requires s.open && Inv(s)
    ensures r.open && Inv(r)
    decreases |lines|
  {
    if lines == [] then s else Cycles(Cycle(s, lines[0]), lines[1..])
  }

  /** As written: with one entry waiting, every export-then-send cycle
      leaves one entry waiting, the remaining length is never a multiple
      of `ReplayFlush`, and every sent line stays in the file. */
  lemma {:induction false} StaleLinesUnbounded(s: State, lines: seq<string>)
    requires s.open && Inv(s) && |s.log| == 1
    ensures |Cycles(s, lines).log| == 1
    ensures |Cycles(s, lines).file| == |s.file| + |lines|
    decreases |lines|
  {
    if lines != [] {
      var c := Cycle(s, lines[0]);
      assert |c.log| == 1 && 1 % ReplayFlush != 0;
      StaleLinesUnbounded(c, lines[1..]);
    }
  }

  /** The file and list with a count of sends since the last rewrite. */
  datatype Mirror = Mirror(file: seq<string>, log: seq<string>, sentSinceFlush: nat)

  /** The file is the sent-but-not-compacted lines followed by the list,
      and fewer than `ReplayFlush` of them. */
  predicate MirrorInv(m: Mirror) {
    && IsSuffix(m.log, m.file)
    && |m.file| == |m.log| + m.sentSinceFlush
    && m.sentSinceFlush < ReplayFlush
  }

  function MirrorAppend(m: Mirror, line: string): (r: Mirror)
    ensures r.log == m.log + [line] && r.file == m.file + [line]
    ensures MirrorInv(m) ==> MirrorInv(r)
  {
    m.(log := m.log + [line], file := m.file + [line])
  }

  /** Corrected: the pop after a successful send rewrites the file every
      `ReplayFlush` sends. */
  function MirrorPop(m: Mirror): (r: Mirror)
    requires m.log != []
    ensures r.log == m.log[1..]
    ensures MirrorInv(m) ==> MirrorInv(r)
    ensures MirrorInv(m) ==> (r.file == r.log <==> m.sentSinceFlush + 1 == ReplayFlush)
  {
    var popped := m.log[1..];
    if m.sentSinceFlush + 1 == ReplayFlush then Mirror(popped, popped, 0)
    else Mirror(m.file, popped, m.sentSinceFlush + 1)
  }

  /** With the correction, a restart re-sends fewer than `ReplayFlush` lines. */
  lemma StaleLinesBounded(m: Mirror)
    requires MirrorInv(m)
    ensures |m.file| - |m.log| < ReplayFlush
    ensures m.file[|m.file| - |m.log|..] == m.log
  {
  }

  // ---------------------------------------------------------------------
  // 2. A line that is valid JSON but whose message has no string
  //    `$schemaRef` raises outside the decode handler: it is neither sent
  //    nor dropped, and no entry behind it is ever sent.

  /** As written: every tick finds the same head, sends nothing and keeps
      the whole queue, however many times the timer is re-armed. */
  lemma {:induction false} MalformedHeadBlocks(s: State, decode: Decoder, n: nat)
    requires s.open && s.log != [] && decode(s.log[0]).Malformed?
    ensures DrainAll(s, decode, n).final.log == s.log
    ensures DrainAll(s, decode, n).sent == []
    decreases n
  {
    if n > 0 && s.timers > 0 {
      MalformedHeadBlocks(Fire(s, decode, Delivered).next, decode, n - 1);
    }
  }

  /** Corrected: the schema lookup is inside the decode handler, so a
      message without a usable `$schemaRef` counts as undecodable. */
  function Guarded(decode: Decoder): (r: Decoder)
    ensures forall line :: !r(line).Malformed?
    ensures forall line :: !decode(line).Parsed? ==> r(line) == Undecodable
    ensures forall line :: decode(line).Parsed? ==> r(line) == decode(line)
  {
    line => if decode(line).Malformed? then Undecodable else decode(line)
  }

  /** With the correction, a drain always empties the queue, sending every
      well-formed entry in order. */
  lemma GuardedDrainEmpties(s: State, decode: Decoder)
    requires s.open && s.timers > 0
    ensures DrainAll(s, Guarded(decode), |s.log|).final.log == []
    ensures DrainAll(s, Guarded(decode), |s.log|).sent == Sendable(s.log, Guarded(decode))
  {
    DrainDelivers(s, Guarded(decode));
  }
}
