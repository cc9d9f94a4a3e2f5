/** The stored message, the wire envelope `CEDDN.send` builds from it, the
    choice of uploader identity, and `CEDDN.canonicalise`
    (plugins/ceedn.py). */
module Upload {
  import opened Options
  import opened Journal

  /** `{'$schemaRef': ..., 'message': ...}` as built by `export_journal_entry`. */
  datatype Msg = Msg(schemaRef: string, message: Value)

  /** One queue line decodes to this `[cmdr, msg]` pair. */
  datatype Entry = Entry(cmdr: string, msg: Msg)

  /** The two persisted configuration values `send` consults: the
      anonymity flag and the stored uploader identity ("" when unset). */
  datatype Config = Config(anonymous: bool, uploaderId: string)

  datatype Choice = Choice(uploaderId: string, config: Config)

  datatype Header = Header(softwareName: string, softwareVersion: string, uploaderId: string)

  datatype Envelope = Envelope(schemaRef: string, header: Header, message: Value)

  datatype Built = Built(envelope: Envelope, config: Config)

  /** The uploader identity: the commander name, unless the anonymity flag
      is set, in which case the stored identity; when none is stored yet,
      `minted` (a new random hex string) becomes the identity and is persisted. */
  function ChooseUploader(c: Config, cmdr: string, minted: string): (r: Choice)
    ensures !c.anonymous ==> r.uploaderId == cmdr && r.config == c
    ensures c.anonymous && c.uploaderId != "" ==> r.uploaderId == c.uploaderId && r.config == c
    ensures c.anonymous && c.uploaderId == "" ==> r.uploaderId == minted
    ensures r.config.anonymous == c.anonymous
    ensures r.config.uploaderId == (if c.anonymous && c.uploaderId == "" then minted else c.uploaderId)
  {
    if c.anonymous then
      if c.uploaderId != "" then Choice(c.uploaderId, c)
      else Choice(minted, c.(uploaderId := minted))
    else Choice(cmdr, c)
  }

  /** Once an anonymous identity has been chosen, every later choice, for
      any commander and any minted random value, returns the same identity
      and leaves the configuration alone. */
  lemma UploaderStable(c: Config, cmdr1: string, minted1: string, cmdr2: string, minted2: string)
    requires c.anonymous
    requires minted1 != ""
    ensures ChooseUploader(ChooseUploader(c, cmdr1, minted1).config, cmdr2, minted2).uploaderId
            == ChooseUploader(c, cmdr1, minted1).uploaderId
    ensures ChooseUploader(ChooseUploader(c, cmdr1, minted1).config, cmdr2, minted2).config
            == ChooseUploader(c, cmdr1, minted1).config
  {
  }

  /** The envelope `send` posts: the schema reference and payload copied
      unchanged, and a header naming the software, its version, the
      platform label and the uploader. */
  function Build(c: Config, cmdr: string, msg: Msg, minted: string,
                 appName: string, appVersion: string, platform: string): (r: Built)
    ensures r.envelope.schemaRef == msg.schemaRef
    ensures r.envelope.message == msg.message
    ensures r.envelope.header.softwareName == appName + " [" + platform + "]"
    ensures r.envelope.header.softwareVersion == appVersion
    ensures r.envelope.header.uploaderId == ChooseUploader(c, cmdr, minted).uploaderId
    ensures r.config == ChooseUploader(c, cmdr, minted).config
  {
    var choice := ChooseUploader(c, cmdr, minted);
    Built(Envelope(msg.schemaRef,
                   Header(appName + " [" + platform + "]", appVersion, choice.uploaderId),
                   msg.message),
          choice.config)
  }

  // ---------------------------------------------------------------------
  // canonicalise: a regular-expression match, anchored at the start only,
  // of a `$`, a non-empty group of characters other than newline, and
  // `_name;`; on a match the group is returned. The group is greedy, so
  // the LAST admissible `_name;` wins.

  const NameMarker: string := "_name;"

  predicate NoNewline(s: string) {
    forall i :: 0 <= i < |s| ==> s[i] != '\n'
  }

  /** The pattern matches `item` with group 1 ending just before index `j`. */
  predicate MatchAt(item: string, j: int) {
    && 2 <= j
    && j + |NameMarker| <= |item|
    && item[0] == '$'
    && item[j..j + |NameMarker|] == NameMarker
    && NoNewline(item[1..j])
  }

  /** The largest group end at or below `hi`, searching downwards. */
  function LastMatch(item: string, hi: int): (r: Option<nat>)
    ensures r.Some? ==> MatchAt(item, r.value) && r.value <= hi
    ensures r.Some? ==> forall j :: r.value < j <= hi ==> !MatchAt(item, j)
    ensures r.None? ==> forall j :: j <= hi ==> !MatchAt(item, j)
    decreases hi
  {
    if hi < 2 then None
    else if MatchAt(item, hi) then Some(hi)
    else LastMatch(item, hi - 1)
  }

  /** `canonicalise(item)`: the text between the leading `$` and the last
      admissible `_name;`, or `item` itself when the pattern does not match. */
  function Canonicalise(item: string): (r: string)
    ensures (forall j :: !MatchAt(item, j)) ==> r == item
    ensures (exists j :: MatchAt(item, j)) ==>
              exists j :: MatchAt(item, j) && r == item[1..j] && forall k :: MatchAt(item, k) ==> k <= j
  {
    match LastMatch(item, |item| - |NameMarker|)
    case None => item
    case Some(j) => item[1..j]
  }

  /** Two concrete cases: a symbol name is unwrapped, a plain name is kept. */
  lemma CanonicaliseExamples()
    ensures Canonicalise("$cobra_name;") == "cobra"
    ensures Canonicalise("Sidewinder") == "Sidewinder"
  {
    var s := "$cobra_name;";
    assert s[1..6] == "cobra";
    assert NoNewline(s[1..6]);
    assert MatchAt(s, 6);
    var t := "Sidewinder";
    assert t[0] == 'S';
  }
}
