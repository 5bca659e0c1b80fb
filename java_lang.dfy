/** Values and string helpers of the Java platform that the cleanup job relies on:
    a nullable value, the 32-bit `int`, `String.trim`, Apache Commons
    `StringUtils.trimToNull` and the comparison `"true".equalsIgnoreCase(v)`. */
module JavaLang {

  /** A Java reference that may be null. */
  datatype Option<+T> = None | Some(value: T)

  /** Java's `int`, the type `Integer.parseInt` returns. */
  newtype Int32 = x: int | -0x8000_0000 <= x < 0x8000_0000

  /** `String.trim` treats every character up to U+0020 as white space. */
  predicate IsTrimmable(c: char) {
    c <= ' '
  }

  /** Drops the leading white space. */
  function TrimLeading(s: string): (r: string)
    ensures |r| <= |s| && r == s[|s| - |r|..]
    ensures forall i :: 0 <= i < |s| - |r| ==> IsTrimmable(s[i])
    ensures r != [] ==> !IsTrimmable(r[0])
  {
    if s != [] && IsTrimmable(s[0]) then TrimLeading(s[1..]) else s
  }

  /** Drops the trailing white space. */
  function TrimTrailing(s: string): (r: string)
    ensures |r| <= |s| && r == s[..|r|]
    ensures forall i :: |r| <= i < |s| ==> IsTrimmable(s[i])
    ensures r != [] ==> !IsTrimmable(r[|r| - 1])
  {
    if s != [] && IsTrimmable(s[|s| - 1]) then TrimTrailing(s[..|s| - 1]) else s
  }

  /** `String.trim`: the longest slice of `s` that neither starts nor ends with
      white space, everything cut away on both sides being white space. */
  function Trim(s: string): (r: string)
    ensures TrimStart(s) + |r| <= |s|
    ensures forall i :: 0 <= i < |r| ==> r[i] == s[TrimStart(s) + i]
    ensures forall i :: 0 <= i < TrimStart(s) ==> IsTrimmable(s[i])
    ensures forall i :: TrimStart(s) + |r| <= i < |s| ==> IsTrimmable(s[i])
    ensures r != [] ==> !IsTrimmable(r[0]) && !IsTrimmable(r[|r| - 1])
  {
    TrimFacts(s);
    TrimTrailing(TrimLeading(s))
  }

  /** Where the trimmed slice starts: the number of leading white-space characters. */
  function TrimStart(s: string): nat {
    |s| - |TrimLeading(s)|
  }

  /** The contract of `Trim`, about the trimming it is made of. */
  lemma TrimFacts(s: string)
    ensures var r := TrimTrailing(TrimLeading(s));
            TrimStart(s) + |r| <= |s| && forall i :: 0 <= i < |r| ==> r[i] == s[TrimStart(s) + i]
    ensures forall i :: 0 <= i < TrimStart(s) ==> IsTrimmable(s[i])
    ensures var r := TrimTrailing(TrimLeading(s));
            forall i :: TrimStart(s) + |r| <= i < |s| ==> IsTrimmable(s[i])
    ensures var r := TrimTrailing(TrimLeading(s));
            r != [] ==> !IsTrimmable(r[0]) && !IsTrimmable(r[|r| - 1])
  {
    TrimIsSlice(s);
    TrimDropsTrailing(s);
    TrimEnds(s);
  }

  /** The trimmed text neither starts nor ends with white space. */
  lemma TrimEnds(s: string)
    ensures var r := TrimTrailing(TrimLeading(s));
            r != [] ==> !IsTrimmable(r[0]) && !IsTrimmable(r[|r| - 1])
  {
    var t := TrimLeading(s);
    var r := TrimTrailing(t);
    if r != [] {
      assert r == t[..|r|];
      assert r[0] == t[0];
      assert !IsTrimmable(t[0]);
    }
  }

  /** Trimming both ends cuts one slice out of the input. */
  lemma TrimIsSlice(s: string)
    ensures var r := TrimTrailing(TrimLeading(s));
            TrimStart(s) + |r| <= |s| && forall i :: 0 <= i < |r| ==> r[i] == s[TrimStart(s) + i]
  {
    var t := TrimLeading(s);
    var r := TrimTrailing(t);
    var a := |s| - |t|;
    assert TrimStart(s) == a;
    forall i | 0 <= i < |r|
      ensures r[i] == s[a + i]
    {
      assert r[i] == t[i];
      assert t[i] == s[a..][i];
    }
  }

  /** Everything after that slice is white space. */
  lemma TrimDropsTrailing(s: string)
    ensures var r := TrimTrailing(TrimLeading(s));
            forall i :: TrimStart(s) + |r| <= i < |s| ==> IsTrimmable(s[i])
  {
    var t := TrimLeading(s);
    var r := TrimTrailing(t);
    var a := |s| - |t|;
    forall i | a + |r| <= i < |s|
      ensures IsTrimmable(s[i])
    {
      assert s[i] == t[i - a];
      assert IsTrimmable(t[i - a]);
    }
  }

  /** A non-empty string that neither starts nor ends with white space, as every
      result of `trimToNull` is. */
  predicate IsTrimmedNonEmpty(s: string) {
    s != [] && !IsTrimmable(s[0]) && !IsTrimmable(s[|s| - 1])
  }

  /** `StringUtils.trimToNull`: null stays null; a value that trims to the empty
      string becomes null. */
  function TrimToNull(v: Option<string>): (r: Option<string>)
    ensures v.None? ==> r.None?
    ensures r.Some? ==> v.Some? && IsTrimmedNonEmpty(r.value) && r.value == Trim(v.value)
    ensures v.Some? && Trim(v.value) != [] ==> r.Some?
  {
    match v
    case None => None
    case Some(s) => if Trim(s) == [] then None else Some(Trim(s))
  }

  /** A present value trims to null exactly when it holds white space only. */
  lemma TrimToNullIsNullIff(s: string)
    ensures TrimToNull(Some(s)).None? <==> forall i :: 0 <= i < |s| ==> IsTrimmable(s[i])
  {
  }

  /** ASCII upper-case letters to lower case; every other character unchanged. */
  function ToLowerAscii(c: char): char {
    if 'A' <= c <= 'Z' then (c as int - 'A' as int + 'a' as int) as char else c
  }

  /** `Boolean.TRUE.toString().equalsIgnoreCase(v)`, which is also what
      `Boolean.valueOf(v)` computes: a null value is false. Only ASCII letters
      fold onto the letters of "true". */
  predicate IsTrueIgnoreCase(v: Option<string>)
    ensures IsTrueIgnoreCase(v) ==> v.Some? && |v.value| == 4
    ensures IsTrueIgnoreCase(v) ==> v.value[0] in {'t', 'T'} && v.value[3] in {'e', 'E'}
  {
    match v
    case None => false
    case Some(s) => |s| == 4 && forall i :: 0 <= i < 4 ==> ToLowerAscii(s[i]) == "true"[i]
  }

  /** The flag reads as on exactly for the sixteen spellings of "true" that
      pick each letter from "true" or from "TRUE". */
  lemma TrueIgnoreCaseIff(s: string)
    ensures IsTrueIgnoreCase(Some(s))
            <==> |s| == 4 && forall i :: 0 <= i < 4 ==> s[i] == "true"[i] || s[i] == "TRUE"[i]
  {
  }

  /** Worked examples of the flag test; `TrueIgnoreCaseIff` gives the exact set. */
  lemma TrueSpellings()
    ensures IsTrueIgnoreCase(Some("true")) && IsTrueIgnoreCase(Some("TRUE"))
    ensures IsTrueIgnoreCase(Some("True")) && IsTrueIgnoreCase(Some("tRuE"))
    ensures !IsTrueIgnoreCase(Some(" true")) && !IsTrueIgnoreCase(Some("yes"))
    ensures !IsTrueIgnoreCase(Some("1")) && !IsTrueIgnoreCase(None)
  {
  }
}
