/** The string normalisation the aggregates apply to names and reasons. */
module Text {
  import opened Wrappers

  /** ECMAScript white space and line terminators. */
  predicate IsSpace(c: char) {
    || c in {'\t', '\n', '\r', ' ', '\U{000B}', '\U{000C}', '\U{00A0}', '\U{1680}', '\U{FEFF}'}
    || '\U{2000}' <= c <= '\U{200A}'
    || c in {'\U{2028}', '\U{2029}', '\U{202F}', '\U{205F}', '\U{3000}'}
  }

  /** `s.trim()`. */
  function Trim(s: string): string {
    if s == [] then []
    else if IsSpace(s[0]) then Trim(s[1..])
    else if IsSpace(s[|s| - 1]) then Trim(s[..|s| - 1])
    else s
  }

  lemma {:induction false} TrimTwice(s: string)
    ensures Trim(Trim(s)) == Trim(s)
  {
    if s == [] {
    } else if IsSpace(s[0]) {
      TrimTwice(s[1..]);
    } else if IsSpace(s[|s| - 1]) {
      TrimTwice(s[..|s| - 1]);
    }
  }

  /** Trimming takes white space off both ends, and all of it. */
  lemma {:induction false} TrimIsMiddle(s: string) returns (before: string, behind: string)
    ensures s == before + Trim(s) + behind
    ensures (forall c :: c in before ==> IsSpace(c)) && (forall c :: c in behind ==> IsSpace(c))
    ensures Trim(s) != [] ==> !IsSpace(Trim(s)[0]) && !IsSpace(Trim(s)[|Trim(s)| - 1])
  {
    before, behind := [], [];
    if s == [] {
    } else if IsSpace(s[0]) {
      before, behind := TrimIsMiddle(s[1..]);
      assert s == [s[0]] + s[1..];
      before := [s[0]] + before;
    } else if IsSpace(s[|s| - 1]) {
      before, behind := TrimIsMiddle(s[..|s| - 1]);
      assert s == s[..|s| - 1] + [s[|s| - 1]];
      behind := behind + [s[|s| - 1]];
    }
  }

  function NormalizeNullable(value: Option<string>): Option<string> {
    match value
    case None => None
    case Some(s) => if Trim(s) == [] then None else Some(Trim(s))
  }

  /** An optional text is absent when it holds nothing visible, and trimmed otherwise. */
  lemma NormalizedText(value: Option<string>)
    ensures NormalizeNullable(value).None? <==> value.None? || forall c :: c in value.value ==> IsSpace(c)
    ensures NormalizeNullable(value).Some? ==> NormalizeNullable(value) == Some(Trim(value.value)) && Trim(value.value) != []
  {
    if value.Some? {
      var before, behind := TrimIsMiddle(value.value);
      if Trim(value.value) != [] {
        assert value.value[|before|] == Trim(value.value)[0];
      }
    }
  }
}
