/** The persistent replay queue of `CEDDN` (plugins/ceedn.py): an in-memory
    list of serialized entries mirrored line by line in a file, filled by
    `export_journal_entry` and drained one head entry per timer tick by
    `sendreplay`.

    The state records whether the file is open (`replayfile` is not None),
    the file's lines, the in-memory list (`replaylog`), the status text and
    the number of `sendreplay` callbacks currently scheduled with
    `parent.after`. Decoding a line and the outcome of a send are supplied
    from outside. */
module Replay {
  import opened Options
  import opened Journal
  import opened Schema
  import opened Upload

  /** The file is rewritten when the remaining queue length is a multiple of this. */
  const ReplayFlush: nat := 20

  /** What `json.loads` of a queue line gives, as far as `sendreplay` is
      concerned: not a `[cmdr, msg]` pair at all (caught, the line is
      dropped); a pair whose `msg` has no string `$schemaRef` (the lookup at
      the rewrite raises outside any handler); or a well-formed entry. */
  datatype Decoded = Undecodable | Malformed | Parsed(entry: Entry)

  type Decoder = string -> Decoded
  type Encoder = Entry -> string

  /** The result of `self.send`: success, a `RequestException`, or any
      other exception with its text. */
  datatype Outcome = Delivered | RequestFailed | Raised(reason: string)

  /** The status label: empty, "Sending data to CEDDN" with the queue depth,
      the connection error, or the text of another error. */
  datatype Status = Blank | Sending(depth: nat) | CannotConnect | Failed(reason: string)

  datatype State = State(open: bool, file: seq<string>, log: seq<string>, status: Status, timers: nat)

  /** A tick's result, with the entry handed to `send` if there was one. */
  datatype Tick = Tick(next: State, sent: Option<Entry>)

  datatype Loaded = Loaded(state: State, ok: bool)

  /** `export_journal_entry`: the entry was stored (and `raised` tells whether
      the timer rule then raised a `KeyError`), or no file could be had and
      the message went to the synchronous send instead. */
  datatype Export = Queued(state: State, raised: bool) | Direct(state: State)

  predicate IsSuffix<T(==)>(a: seq<T>, b: seq<T>) {
    |a| <= |b| && b[|b| - |a|..] == a
  }

  /** The in-memory list is always the tail of the file's lines. */
  predicate Inv(s: State) {
    IsSuffix(s.log, s.file)
  }

  function Rearm(s: State): State {
    s.(timers := s.timers + 1)
  }

  /** The entry as `send` receives it: schema reference rewritten. */
  function Rewritten(e: Entry): (r: Entry)
    ensures r.cmdr == e.cmdr && r.msg.message == e.msg.message
    ensures !StartsWith(r.msg.schemaRef, DeprecatedPrefix)
    ensures r.msg.schemaRef == Rewrite(e.msg.schemaRef)
    ensures !StartsWith(e.msg.schemaRef, DeprecatedPrefix) ==> r == e
  {
    Entry(e.cmdr, e.msg.(schemaRef := Rewrite(e.msg.schemaRef)))
  }

  // ---------------------------------------------------------------------
  // File mirror: __init__, load, flush, close, and the two list updates.

  /** A new `CEDDN`: no file open, empty list, nothing scheduled; `disk`
      is whatever the file holds. */
  function Start(disk: seq<string>): (s: State)
    ensures !s.open && s.log == [] && s.file == disk && s.timers == 0
    ensures Inv(s)
  {
    State(false, disk, [], Blank, 0)
  }

  /** `load`: when the file is opened and locked (`acquired`), the list
      becomes the file's lines; otherwise no file is held and the list is
      left as it was. */
  function Load(s: State, acquired: bool): (r: Loaded)
    ensures r.ok == acquired && r.state.open == acquired
    ensures acquired ==> r.state.log == s.file
    ensures !acquired ==> r.state.log == s.log
    ensures r.state.file == s.file && r.state.timers == s.timers && r.state.status == s.status
    ensures acquired ==> Inv(r.state)
    ensures Inv(s) ==> Inv(r.state)
  {
    if acquired then Loaded(s.(open := true, log := s.file), true)
    else Loaded(s.(open := false), false)
  }

  /** `flush`: truncate the file and write the list back. */
  function Flush(s: State): (r: State)
    requires s.open
    ensures r.file == s.log && r.log == s.log
    ensures r.open && r.timers == s.timers && r.status == s.status
    ensures Inv(r)
  {
    s.(file := s.log)
  }

  /** `close`: release the file; the list and the file's lines stay. */
  function Close(s: State): (r: State)
    ensures !r.open
    ensures r.file == s.file && r.log == s.log && r.timers == s.timers
    ensures Inv(s) ==> Inv(r)
  {
    s.(open := false)
  }

  /** Appending one line to the list and the same line to the file. */
  function Append(s: State, line: string): (r: State)
    requires s.open
    ensures r.log == s.log + [line] && r.file == s.file + [line]
    ensures r.open && r.timers == s.timers && r.status == s.status
    ensures Inv(s) ==> Inv(r)
  {
    s.(log := s.log + [line], file := s.file + [line])
  }

  /** The pop after a successful send, followed by `flush` exactly when the
      remaining length is a multiple of `ReplayFlush` (zero included). */
  function PopHead(s: State): (r: State)
    requires s.open && s.log != []
    ensures r.log == s.log[1..]
    ensures r.file == if |r.log| % ReplayFlush == 0 then r.log else s.file
    ensures r.open && r.timers == s.timers && r.status == s.status
    ensures Inv(s) ==> Inv(r)
    ensures Inv(s) ==> (r.file == r.log <==> |r.log| % ReplayFlush == 0)
  {
    var popped := s.(log := s.log[1..]);
    if |popped.log| % ReplayFlush == 0 then Flush(popped) else popped
  }

  // ---------------------------------------------------------------------
  // The delivery step.

  /** One run of `sendreplay`. */
  function SendReplay(s: State, decode: Decoder, outcome: Outcome): (r: Tick)
    // probably closing: nothing at all happens
    ensures !s.open ==> r.next == s && r.sent == None
    // empty queue: blank status, nothing re-armed, nothing else changes
    ensures s.open && s.log == [] ==> r.next == s.(status := Blank) && r.sent == None
    // otherwise exactly one head entry is looked at
    ensures s.open && s.log != [] ==> r.next.open && r.next.status != Blank
    ensures s.open && s.log != [] && decode(s.log[0]).Undecodable? ==>
              && r.next.log == s.log[1..] && r.next.file == s.file
              && r.next.timers == s.timers + 1 && r.sent == None
    ensures s.open && s.log != [] && decode(s.log[0]).Malformed? ==>
              && r.next.log == s.log && r.next.file == s.file
              && r.next.timers == s.timers && r.sent == None
    ensures s.open && s.log != [] && decode(s.log[0]).Parsed? ==>
              r.sent == Some(Rewritten(decode(s.log[0]).entry))
    ensures s.open && s.log != [] && decode(s.log[0]).Parsed? && outcome.Delivered? ==>
              && r.next.log == s.log[1..] && r.next.timers == s.timers + 1
              && r.next.file == (if |s.log[1..]| % ReplayFlush == 0 then s.log[1..] else s.file)
    ensures s.open && s.log != [] && decode(s.log[0]).Parsed? && !outcome.Delivered? ==>
              && r.next.log == s.log && r.next.file == s.file && r.next.timers == s.timers
              && r.next.status == (if outcome.RequestFailed? then CannotConnect else Failed(outcome.reason))
    ensures Inv(s) ==> Inv(r.next)
  {
    if !s.open then Tick(s, None)
    else if s.log == [] then Tick(s.(status := Blank), None)
    else
      var busy := s.(status := Sending(|s.log|));
      match decode(s.log[0])
      case Undecodable => Tick(Rearm(busy.(log := s.log[1..])), None)
      case Malformed => Tick(busy, None)
      case Parsed(e) =>
        match outcome
        case Delivered => Tick(Rearm(PopHead(busy)), Some(Rewritten(e)))
        case RequestFailed => Tick(busy.(status := CannotConnect), Some(Rewritten(e)))
        case Raised(why) => Tick(busy.(status := Failed(why)), Some(Rewritten(e)))
  }

  /** A scheduled callback fires: it is consumed, and `sendreplay` runs.
      The callback's chain goes on exactly when the tick re-arms. */
  function Fire(s: State, decode: Decoder, outcome: Outcome): (r: Tick)
    requires s.timers > 0
    ensures s.timers - 1 <= r.next.timers <= s.timers
    ensures !s.open || s.log == [] ==> r.next.timers == s.timers - 1
    ensures s.open && s.log != [] && decode(s.log[0]).Parsed? ==>
              (r.next.timers == s.timers <==> outcome.Delivered?)
    ensures s.open && s.log != [] && decode(s.log[0]).Undecodable? ==> r.next.timers == s.timers
    ensures s.open && s.log != [] && decode(s.log[0]).Malformed? ==> r.next.timers == s.timers - 1
    ensures r.next.log == s.log || (s.log != [] && r.next.log == s.log[1..])
    ensures Inv(s) ==> Inv(r.next)
  {
    SendReplay(s.(timers := s.timers - 1), decode, outcome)
  }

  // ---------------------------------------------------------------------
  // Enqueue.

  predicate EventIs(entry: seq<Field>, name: string) {
    Lookup(entry, "event") == Some(Str(name))
  }

  /** `entry['Docked']` is present and true. */
  predicate DockedSet(entry: seq<Field>) {
    Lookup(entry, "Docked").Some? && Truthy(Lookup(entry, "Docked").value)
  }

  /** The timer rule reads a key the entry lacks and raises `KeyError`. */
  predicate TimerRuleRaises(entry: seq<Field>) {
    || Lookup(entry, "event").None?
    || (EventIs(entry, "Location") && Lookup(entry, "Docked").None?)
  }

  /** The timer rule as written: a `Docked` event, a `Location` event while
      docked, or the batch-delay option off. */
  predicate ArmsTimer(entry: seq<Field>, delayed: bool) {
    EventIs(entry, "Docked") || (EventIs(entry, "Location") && DockedSet(entry)) || !delayed
  }

  /** The rule evaluated left to right as Python does: `Some(arm)`, or
      `None` where a dictionary lookup raises. */
  function ArmDecision(entry: seq<Field>, delayed: bool): (r: Option<bool>)
    ensures r.None? <==> TimerRuleRaises(entry)
    ensures r.Some? ==> (r.value <==> ArmsTimer(entry, delayed))
  {
    match Lookup(entry, "event")
    case None => None
    case Some(ev) =>
      if ev == Str("Docked") then Some(true)
      else if ev == Str("Location") then
        match Lookup(entry, "Docked")
        case None => None
        case Some(d) => Some(Truthy(d) || !delayed)
      else Some(!delayed)
  }

  /** `export_journal_entry`: build the message, make sure a file is open
      (loading it if none is), store the serialized `[cmdr, msg]` at the
      tail of the list and of the file, and schedule a tick when the timer
      rule says so. */
  function Enqueue(s: State, cmdr: string, isBeta: bool, entry: seq<Field>,
                   acquired: bool, delayed: bool, encode: Encoder): (r: Export)
    ensures r.Direct? <==> !s.open && !acquired
    ensures r.Direct? ==> r.state == s
    ensures r.Queued? ==>
              var line := encode(Entry(cmdr, Msg(JournalSchema(isBeta), Obj(entry))));
              && r.state.open
              && r.state.log == (if s.open then s.log else s.file) + [line]
              && r.state.file == s.file + [line]
              && r.state.status == s.status
    ensures r.Queued? ==> (r.raised <==> TimerRuleRaises(entry))
    ensures r.Queued? ==>
              (r.state.timers == s.timers + 1 <==> !TimerRuleRaises(entry) && ArmsTimer(entry, delayed))
    ensures r.Queued? ==> s.timers <= r.state.timers <= s.timers + 1
    ensures Inv(s) ==> Inv(r.state)
  {
    var loaded := if s.open then Loaded(s, true) else Load(s, acquired);
    if !loaded.ok then Direct(loaded.state)
    else
      var line := encode(Entry(cmdr, Msg(JournalSchema(isBeta), Obj(entry))));
      var stored := Append(loaded.state, line);
      match ArmDecision(entry, delayed)
      case None => Queued(stored, true)
      case Some(arm) => Queued(if arm then Rearm(stored) else stored, false)
  }
}
