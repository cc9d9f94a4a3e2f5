/** Schema references: the reference new journal messages are stored with,
    and the rewrite of the deprecated host applied to each message just
    before it is sent (plugins/ceedn.py, `export_journal_entry` and
    `sendreplay`). */
module Schema {

  const DeprecatedPrefix: string := "http://schemas.elite-markets.net/eddn/"
  const CurrentPrefix: string := "https://ceddn.canonn.tech/schemas/"

  /** The source slices the old reference at this literal index. */
  const DeprecatedLength: nat := 38

  const JournalRef: string := "https://ceddn.canonn.tech/schemas/journal/1"
  const BetaSuffix: string := "/test"

  predicate StartsWith(s: string, prefix: string) {
    |prefix| <= |s| && s[..|prefix|] == prefix
  }

  /** The reference `export_journal_entry` stores with a journal event. */
  function JournalSchema(isBeta: bool): (r: string)
    ensures StartsWith(r, CurrentPrefix)
    ensures isBeta <==> |r| > |JournalRef|
    ensures StartsWith(r, JournalRef)
    ensures isBeta ==> r[|JournalRef|..] == BetaSuffix
    ensures !isBeta ==> r == JournalRef
  {
    JournalRef + (if isBeta then BetaSuffix else "")
  }

  /** The send-time rewrite: a reference under the deprecated host is moved
      under the current host, keeping everything after the literal index 38. */
  function Rewrite(ref: string): (r: string)
    ensures !StartsWith(r, DeprecatedPrefix)
    ensures StartsWith(ref, DeprecatedPrefix) ==>
              StartsWith(r, CurrentPrefix) && r[|CurrentPrefix|..] == ref[DeprecatedLength..]
    ensures !StartsWith(ref, DeprecatedPrefix) ==> r == ref
  {
    if StartsWith(ref, DeprecatedPrefix) then
      assert |DeprecatedPrefix| == DeprecatedLength;
      var r := CurrentPrefix + ref[DeprecatedLength..];
      assert r[4] != DeprecatedPrefix[4];
      r
    else ref
  }

  /** Rewriting an already rewritten reference changes nothing. */
  lemma RewriteIdempotent(ref: string)
    ensures Rewrite(Rewrite(ref)) == Rewrite(ref)
  {
  }

  /** The rewrite loses nothing: two references that are both deprecated,
      or both current, are rewritten to the same result only if they were
      equal to begin with. */
  lemma RewriteInjective(a: string, b: string)
    requires StartsWith(a, DeprecatedPrefix) == StartsWith(b, DeprecatedPrefix)
    requires Rewrite(a) == Rewrite(b)
    ensures a == b
  {
    if StartsWith(a, DeprecatedPrefix) {
      assert a == DeprecatedPrefix + a[|DeprecatedPrefix|..];
      assert b == DeprecatedPrefix + b[|DeprecatedPrefix|..];
    }
  }

  /** A journal reference as stored at enqueue time is never rewritten. */
  lemma JournalSchemaIsCurrent(isBeta: bool)
    ensures Rewrite(JournalSchema(isBeta)) == JournalSchema(isBeta)
  {
    var r := JournalSchema(isBeta);
    assert r[4] != DeprecatedPrefix[4];
  }
}
