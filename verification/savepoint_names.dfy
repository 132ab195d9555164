/** Savepoint names: `'sp_' + randomUUID().replaceAll('-', '_')`. The UUID
    is an input here; its uniqueness is an assumption the model can state
    but not prove. */
module SavepointNames {

  const Prefix: string := "sp_"

  /** `String.prototype.replaceAll` for a single-character pattern. */
  function ReplaceAll(s: string, from: char, to: char): (r: string)
    ensures |r| == |s|
    ensures forall i :: 0 <= i < |s| ==> r[i] == (if s[i] == from then to else s[i])
  {
    if s == [] then []
    else [if s[0] == from then to else s[0]] + ReplaceAll(s[1..], from, to)
  }

  /** After replacing every `from` by a different character, no `from` is left. */
  lemma ReplaceAllRemoves(s: string, from: char, to: char)
    requires from != to
    ensures from !in ReplaceAll(s, from, to)
  {
    var r := ReplaceAll(s, from, to);
    forall i | 0 <= i < |r|
      ensures r[i] != from
    {
    }
  }

  /** Replacing back undoes a replacement, provided the replacement
      character did not already occur in the input. */
  lemma ReplaceAllRoundTrip(s: string, from: char, to: char)
    requires to !in s
    ensures ReplaceAll(ReplaceAll(s, from, to), to, from) == s
  {
    var r := ReplaceAll(ReplaceAll(s, from, to), to, from);
    forall i | 0 <= i < |s|
      ensures r[i] == s[i]
    {
      assert s[i] != to;
    }
  }

  /** The savepoint name built from one UUID. */
  function SavepointName(uuid: string): (n: string)
    ensures |n| == |Prefix| + |uuid|
    ensures n[..|Prefix|] == Prefix
    ensures '-' !in n
  {
    ReplaceAllRemoves(uuid, '-', '_');
    Prefix + ReplaceAll(uuid, '-', '_')
  }

  /** The shape every generated name has. */
  predicate IsSavepointName(n: string) {
    |n| >= |Prefix| && n[..|Prefix|] == Prefix && '-' !in n
  }

  /** Recovers the UUID a name was built from. */
  function UuidOf(n: string): string
    requires IsSavepointName(n)
  {
    ReplaceAll(n[|Prefix|..], '_', '-')
  }

  /** UUIDs (which never contain `_`) are recovered from their names. */
  lemma UuidOfSavepointName(uuid: string)
    requires '_' !in uuid
    ensures IsSavepointName(SavepointName(uuid))
    ensures UuidOf(SavepointName(uuid)) == uuid
  {
    var n := SavepointName(uuid);
    assert n[|Prefix|..] == ReplaceAll(uuid, '-', '_');
    ReplaceAllRoundTrip(uuid, '-', '_');
  }

  /** Distinct UUIDs give distinct savepoint names, so sibling savepoints are
      pairwise distinct exactly when the UUID source never repeats itself. */
  lemma DistinctUuidsDistinctNames(u1: string, u2: string)
    requires '_' !in u1 && '_' !in u2
    requires u1 != u2
    ensures SavepointName(u1) != SavepointName(u2)
  {
    UuidOfSavepointName(u1);
    UuidOfSavepointName(u2);
  }

  /** Characters `crypto.randomUUID` produces: lower-case hex digits and dashes. */
  predicate IsUuidChar(c: char) {
    ('0' <= c <= '9') || ('a' <= c <= 'f') || c == '-'
  }

  /** Characters of an unquoted lower-case SQL identifier. */
  predicate IsIdentChar(c: char) {
    ('a' <= c <= 'z') || ('0' <= c <= '9') || c == '_'
  }

  /** An unquoted identifier: starts with a letter or underscore and goes on
      with letters, digits and underscores (no case folding applies to it). */
  predicate IsUnquotedIdentifier(n: string) {
    |n| > 0
    && (('a' <= n[0] <= 'z') || n[0] == '_')
    && forall i :: 0 <= i < |n| ==> IsIdentChar(n[i])
  }

  /** A name built from a UUID can be spliced unquoted into
      `SAVEPOINT`, `RELEASE SAVEPOINT` and `ROLLBACK TO SAVEPOINT`. */
  lemma SavepointNameIsIdentifier(uuid: string)
    requires forall i :: 0 <= i < |uuid| ==> IsUuidChar(uuid[i])
    ensures IsUnquotedIdentifier(SavepointName(uuid))
    // a textual UUID (36 characters) stays within PostgreSQL's 63-byte identifier limit
    ensures |uuid| == 36 ==> |SavepointName(uuid)| <= 63
  {
    var n := SavepointName(uuid);
    forall i | 0 <= i < |n|
      ensures IsIdentChar(n[i])
    {
      if i >= |Prefix| {
        assert n[i] == ReplaceAll(uuid, '-', '_')[i - |Prefix|];
        assert IsUuidChar(uuid[i - |Prefix|]);
      } else {
        assert n[i] == Prefix[i];
      }
    }
  }
}
