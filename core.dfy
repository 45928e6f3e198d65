/** Values shared by the whole client: optional values, results carrying the
    library's error kinds, ElementTree's `find`, and the string operations the
    library relies on (`startswith`, `endswith`, `re.sub` on a fixed pattern). */
module Core {

  datatype Option<+T> = None | Some(value: T)

  /** The ways a call into the client can fail. */
  datatype Error =
    /** PytassiumError raised by a Dataset forwarder: the dataset's metadata
        declared no endpoint of this kind (the short name, e.g. "sparql"). */
    | MissingApi(kind: string)
    /** PytassiumError("graph_uri not currently supported"). */
    | GraphUriNotSupported
    /** PytassiumError raised for a SELECT binding with none of uri/literal/bnode. */
    | UnclassifiableBinding
    /** The AttributeError Python raises when `find` gave None for a required
        element of a results document (its tag is kept). */
    | MissingElement(tag: string)
    /** A foreign parser (RDF, XML or JSON) rejected a body that came with a
        success status. */
    | ParseFailure(format: string)

  datatype Result<+T> = Ok(value: T) | Err(error: Error)

  predicate StartsWith(s: string, prefix: string)
  {
    |prefix| <= |s| && s[..|prefix|] == prefix
  }

  predicate EndsWith(s: string, suffix: string)
  {
    |suffix| <= |s| && s[|s| - |suffix|..] == suffix
  }

  /** ElementTree's `find`/first-match: the index of the first element that
      satisfies `p`, or None when there is none. */
  function Find<T>(s: seq<T>, p: T -> bool): (r: Option<nat>)
    ensures r.Some? ==> r.value < |s| && p(s[r.value])
    ensures r.Some? ==> forall i :: 0 <= i < r.value ==> !p(s[i])
    ensures r.None? ==> forall i :: 0 <= i < |s| ==> !p(s[i])
  {
    if s == [] then None
    else if p(s[0]) then Some(0)
    else match Find(s[1..], p)
      case None => None
      case Some(i) => Some(i + 1)
  }

  /** `re.sub(pat, rep, s)` read as a literal substring replacement: the
      occurrences of `pat` are found left to right without overlap and each is
      replaced by `rep`. */
  function ReplaceAll(s: string, pat: string, rep: string): string
    requires pat != []
    decreases |s|
  {
    if |s| < |pat| then s
    else if s[..|pat|] == pat then rep + ReplaceAll(s[|pat|..], pat, rep)
    else [s[0]] + ReplaceAll(s[1..], pat, rep)
  }

  /** A string in which no occurrence of the pattern starts is left unchanged. */
  lemma {:induction false} ReplaceAllIdentity(s: string, pat: string, rep: string)
    requires pat != []
    requires forall i :: 0 <= i < |s| ==> !StartsWith(s[i..], pat)
    ensures ReplaceAll(s, pat, rep) == s
    decreases |s|
  {
    if |pat| <= |s| {
      assert !StartsWith(s[0..], pat);
      assert s[0..] == s;
      forall i | 0 <= i < |s[1..]|
        ensures !StartsWith(s[1..][i..], pat)
      {
        assert s[1..][i..] == s[i + 1..];
      }
      ReplaceAllIdentity(s[1..], pat, rep);
      assert [s[0]] + s[1..] == s;
    }
  }

  /** Characters that cannot start the pattern are copied through. */
  lemma {:induction false} ReplaceAllKeepsHead(a: string, b: string, pat: string, rep: string)
    requires pat != []
    requires forall i :: 0 <= i < |a| ==> a[i] != pat[0]
    ensures ReplaceAll(a + b, pat, rep) == a + ReplaceAll(b, pat, rep)
    decreases |a|
  {
    if a == [] {
      assert a + b == b;
    } else {
      var s := a + b;
      ReplaceAllSkipsMismatch(s, pat, rep, 0);
      assert s[1..] == a[1..] + b;
      ReplaceAllKeepsHead(a[1..], b, pat, rep);
      assert [a[0]] + a[1..] == a;
    }
  }

  /** A position whose text differs from the pattern at offset `j` is copied
      through and the scan moves on by one character. */
  lemma ReplaceAllSkipsMismatch(s: string, pat: string, rep: string, j: nat)
    requires pat != [] && 0 < |s| && j < |pat| && j < |s| && s[j] != pat[j]
    ensures ReplaceAll(s, pat, rep) == [s[0]] + ReplaceAll(s[1..], pat, rep)
  {
  }

  /** An occurrence of the pattern at the front is replaced. */
  lemma ReplaceAllAtMatch(rest: string, pat: string, rep: string)
    requires pat != []
    ensures ReplaceAll(pat + rest, pat, rep) == rep + ReplaceAll(rest, pat, rep)
  {
  }
}
