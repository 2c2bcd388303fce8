/** The string and path helpers of StringType (src/Types/Types.cpp):
    Explode, the file-name helpers, IsNumeric and the in-place case mapping. */
module StringTypes {

  // ---------------------------------------------------------------------
  // Explode
  // ---------------------------------------------------------------------

  /** The tokens std::getline produces when it reads s with delimiter d,
      with the empty ones dropped; `cur` is the token read so far. */
  function Tokenize(s: string, d: char, cur: string): (tokens: seq<string>)
    requires d !in cur
    ensures forall i :: 0 <= i < |tokens| ==> tokens[i] != [] && d !in tokens[i]
    ensures cur != [] ==> tokens != []
    decreases |s|
  {
    if s == [] then
      (if cur == [] then [] else [cur])
    else if s[0] == d then
      (if cur == [] then [] else [cur]) + Tokenize(s[1..], d, [])
    else
      Tokenize(s[1..], d, cur + [s[0]])
  }

  /** StringType::Explode: split at every delimiter, dropping empty tokens. */
  function Explode(value: string, delim: char): (tokens: seq<string>)
    ensures forall i :: 0 <= i < |tokens| ==> tokens[i] != [] && delim !in tokens[i]
  {
    Tokenize(value, delim, [])
  }

  /** The tokens glued back together with the delimiter between them. */
  function Join(tokens: seq<string>, d: char): string
  {
    if tokens == [] then []
    else if |tokens| == 1 then tokens[0]
    else tokens[0] + [d] + Join(tokens[1..], d)
  }

  /** The tokens glued back together with nothing between them. */
  function Concat(tokens: seq<string>): string
  {
    if tokens == [] then [] else tokens[0] + Concat(tokens[1..])
  }

  /** s with every occurrence of d taken out. */
  function Without(s: string, d: char): string
  {
    if s == [] then []
    else if s[0] == d then Without(s[1..], d)
    else [s[0]] + Without(s[1..], d)
  }

  /** A one-pass normaliser, independent of Explode: it drops leading and
      trailing delimiters and collapses every run of delimiters between two
      other characters into one. `seen` says a non-delimiter was already
      emitted, `pending` that a delimiter is owed before the next one. */
  function Squeeze(s: string, d: char, seen: bool, pending: bool): string
  {
    if s == [] then []
    else if s[0] == d then Squeeze(s[1..], d, seen, seen)
    else (if pending then [d] else []) + [s[0]] + Squeeze(s[1..], d, true, false)
  }

  function Collapse(s: string, d: char): string
  {
    Squeeze(s, d, false, false)
  }

  /** Concatenating the tokens gives the input with its delimiters removed:
      Explode keeps every other character, in order. */
  lemma {:induction false} ConcatTokenize(s: string, d: char, cur: string)
    requires d !in cur
    ensures Concat(Tokenize(s, d, cur)) == cur + Without(s, d)
    decreases |s|
  {
    if s == [] {
    } else if s[0] == d {
      ConcatTokenize(s[1..], d, []);
      var rest := Tokenize(s[1..], d, []);
      if cur != [] {
        assert ([cur] + rest)[1..] == rest;
      } else {
        assert [] + rest == rest;
      }
    } else {
      ConcatTokenize(s[1..], d, cur + [s[0]]);
    }
  }

  lemma ConcatExplode(s: string, d: char)
    ensures Concat(Explode(s, d)) == Without(s, d)
  {
    ConcatTokenize(s, d, []);
  }

  /** The generalisation behind JoinExplode: the state of Squeeze mirrors
      the token being built by Tokenize. */
  lemma {:induction false} JoinTokenize(s: string, d: char, cur: string, seen: bool)
    requires d !in cur
    ensures cur != [] ==> Join(Tokenize(s, d, cur), d) == cur + Squeeze(s, d, true, false)
    ensures cur == [] && !seen ==> Join(Tokenize(s, d, cur), d) == Squeeze(s, d, false, false)
    ensures cur == [] && seen && Tokenize(s, d, cur) != [] ==>
              [d] + Join(Tokenize(s, d, cur), d) == Squeeze(s, d, true, true)
    ensures cur == [] && seen && Tokenize(s, d, cur) == [] ==> Squeeze(s, d, true, true) == []
    decreases |s|
  {
    if s == [] {
    } else if s[0] == d {
      JoinTokenize(s[1..], d, [], true);
      JoinTokenize(s[1..], d, [], seen);
      var rest := Tokenize(s[1..], d, []);
      if cur == [] {
        assert Tokenize(s, d, cur) == rest by { assert [] + rest == rest; }
      } else {
        assert Tokenize(s, d, cur) == [cur] + rest;
        if rest != [] {
          assert Join([cur] + rest, d) == cur + [d] + Join(rest, d) by {
            assert ([cur] + rest)[1..] == rest;
          }
        }
      }
    } else {
      var next := cur + [s[0]];
      JoinTokenize(s[1..], d, next, true);
      var tail := Squeeze(s[1..], d, true, false);
      assert Join(Tokenize(s, d, cur), d) == next + tail;
      assert Squeeze(s, d, seen || cur != [], false) == [s[0]] + tail;
      assert next + tail == cur + ([s[0]] + tail);
    }
  }

  /** Joining the tokens with the delimiter gives the input with delimiter
      runs collapsed and leading and trailing delimiters removed. */
  lemma JoinExplode(s: string, d: char)
    ensures Join(Explode(s, d), d) == Collapse(s, d)
  {
    JoinTokenize(s, d, [], false);
  }

  lemma {:induction false} TokenizeAppend(t: string, r: string, d: char, cur: string)
    requires d !in cur && d !in t
    ensures Tokenize(t + r, d, cur) == Tokenize(r, d, cur + t)
    decreases |t|
  {
    if t != [] {
      assert (t + r)[0] == t[0] && (t + r)[1..] == t[1..] + r;
      TokenizeAppend(t[1..], r, d, cur + [t[0]]);
      assert cur + [t[0]] + t[1..] == cur + t;
    } else {
      assert t + r == r;
      assert cur + t == cur;
    }
  }

  /** Round trip: tokens that are non-empty and free of the delimiter come
      back unchanged from Explode after Join. */
  lemma {:induction false} ExplodeJoin(tokens: seq<string>, d: char)
    requires forall i :: 0 <= i < |tokens| ==> tokens[i] != [] && d !in tokens[i]
    ensures Explode(Join(tokens, d), d) == tokens
    decreases |tokens|
  {
    if |tokens| == 1 {
      TokenizeAppend(tokens[0], [], d, []);
      assert tokens[0] + [] == tokens[0] && [] + tokens[0] == tokens[0];
    } else if |tokens| > 1 {
      var rest := Join(tokens[1..], d);
      assert Join(tokens, d) == tokens[0] + ([d] + rest);
      TokenizeAppend(tokens[0], [d] + rest, d, []);
      assert [] + tokens[0] == tokens[0];
      assert ([d] + rest)[0] == d && ([d] + rest)[1..] == rest;
      ExplodeJoin(tokens[1..], d);
      assert tokens == [tokens[0]] + tokens[1..];
    }
  }

  // ---------------------------------------------------------------------
  // File-name helpers
  // ---------------------------------------------------------------------

  /** Join of two or more tokens ends with the last one, preceded by the
      delimiter. */
  lemma {:induction false} JoinEndsWithLast(tokens: seq<string>, d: char)
    requires |tokens| > 0
    ensures var j := Join(tokens, d); var t := tokens[|tokens| - 1];
            |t| <= |j| && j[|j| - |t|..] == t &&
            (|tokens| == 1 <==> |t| == |j|) &&
            (|tokens| > 1 ==> j[|j| - |t| - 1] == d)
    decreases |tokens|
  {
    if |tokens| > 1 {
      JoinEndsWithLast(tokens[1..], d);
      assert tokens[1..][|tokens[1..]| - 1] == tokens[|tokens| - 1];
    }
  }

  /** Join of two or more tokens starts with the first one, then the delimiter. */
  lemma JoinStartsWithFirst(tokens: seq<string>, d: char)
    requires |tokens| > 0
    ensures var j := Join(tokens, d);
            |tokens[0]| <= |j| && j[..|tokens[0]|] == tokens[0] &&
            (|tokens| > 1 ==> |tokens[0]| < |j| && j[|tokens[0]|] == d)
  {
  }

  /** StringType::GetNameFromFilename: the last non-empty '/'-segment. The
      source indexes the last token without a check, so at least one
      segment is required. */
  function GetNameFromFilename(filename: string): (name: string)
    requires |Explode(filename, '/')| > 0
    ensures name != [] && '/' !in name
    ensures var c := Collapse(filename, '/');
            |name| <= |c| && c[|c| - |name|..] == name &&
            (|name| == |c| || c[|c| - |name| - 1] == '/')
  {
    var parts := Explode(filename, '/');
    JoinExplode(filename, '/');
    JoinEndsWithLast(parts, '/');
    parts[|parts| - 1]
  }

  /** StringType::GetNameFromFilenameNoExt: the first '.'-segment of the
      file name; the name must have at least one such segment. */
  function GetNameFromFilenameNoExt(filename: string): (stem: string)
    requires |Explode(filename, '/')| > 0
    requires |Explode(GetNameFromFilename(filename), '.')| > 0
    ensures stem != [] && '.' !in stem && '/' !in stem
    ensures var c := Collapse(GetNameFromFilename(filename), '.');
            |stem| <= |c| && c[..|stem|] == stem && (|stem| == |c| || c[|stem|] == '.')
  {
    var name := Explode(GetNameFromFilename(filename), '.');
    JoinExplode(GetNameFromFilename(filename), '.');
    JoinStartsWithFirst(name, '.');
    assert |name| == 1 ==> Join(name, '.') == name[0];
    ConcatExplode(GetNameFromFilename(filename), '.');
    NotInWithout(GetNameFromFilename(filename), '.', '/');
    NotInConcat(name, '/', 0);
    name[0]
  }

  /** StringType::GetExtFromFilename: the SECOND '.'-segment of the file
      name (not the last one); at least two segments are required. */
  function GetExtFromFilename(filename: string): (ext: string)
    requires |Explode(filename, '/')| > 0
    requires |Explode(GetNameFromFilename(filename), '.')| > 1
    ensures ext != [] && '.' !in ext && '/' !in ext
    ensures var parts := Explode(GetNameFromFilename(filename), '.');
            var c := Collapse(GetNameFromFilename(filename), '.');
            var start := |parts[0]| + 1;
            start + |ext| <= |c| && c[start - 1] == '.' && c[start..start + |ext|] == ext &&
            (start + |ext| == |c| || c[start + |ext|] == '.')
  {
    var name := Explode(GetNameFromFilename(filename), '.');
    JoinExplode(GetNameFromFilename(filename), '.');
    JoinStartsWithFirst(name, '.');
    JoinStartsWithFirst(name[1..], '.');
    assert Join(name, '.') == name[0] + ['.'] + Join(name[1..], '.');
    assert name[1..][0] == name[1];
    ConcatExplode(GetNameFromFilename(filename), '.');
    NotInWithout(GetNameFromFilename(filename), '.', '/');
    NotInConcat(name, '/', 1);
    name[1]
  }

  lemma {:induction false} NotInWithout(s: string, d: char, c: char)
    requires c !in s
    ensures c !in Without(s, d)
  {
    if s != [] {
      NotInWithout(s[1..], d, c);
    }
  }

  lemma {:induction false} NotInConcat(tokens: seq<string>, c: char, k: nat)
    requires c !in Concat(tokens) && k < |tokens|
    ensures c !in tokens[k]
  {
    if k > 0 {
      NotInConcat(tokens[1..], c, k - 1);
    }
  }

  lemma ConcatAppend(a: seq<string>, t: string)
    ensures Concat(a + [t]) == Concat(a) + t
  {
    if a != [] {
      assert (a + [t])[1..] == a[1..] + [t];
      ConcatAppend(a[1..], t);
    }
  }

  /** StringType::GetPathFromFilename: every segment but the last,
      concatenated WITHOUT separators. The source computes size()-1 on the
      segment count, so an empty segment list is excluded. */
  method GetPathFromFilename(filename: string) returns (path: string)
    requires |Explode(filename, '/')| > 0
    ensures path + GetNameFromFilename(filename) == Without(filename, '/')
    ensures '/' !in path
  {
    var parts := Explode(filename, '/');
    path := "";
    var i := 0;
    while i < |parts| - 1
      invariant 0 <= i <= |parts| - 1
      invariant path == Concat(parts[..i])
    {
      ConcatAppend(parts[..i], parts[i]);
      assert parts[..i + 1] == parts[..i] + [parts[i]];
      path := path + parts[i];
      i := i + 1;
    }
    ConcatAppend(parts[..i], parts[i]);
    assert parts[..i] + [parts[i]] == parts;
    ConcatExplode(filename, '/');
    NoSlashInWithout(filename);
  }

  lemma {:induction false} NoSlashInWithout(s: string)
    ensures '/' !in Without(s, '/')
  {
    if s != [] {
      NoSlashInWithout(s[1..]);
    }
  }

  // ---------------------------------------------------------------------
  // IsNumeric
  // ---------------------------------------------------------------------

  predicate IsDigit(c: char) { '0' <= c <= '9' }

  /** StringType::IsNumeric: std::all_of over std::isdigit, so the empty
      string is numeric. */
  function IsNumeric(s: string): (r: bool)
    ensures r <==> forall i :: 0 <= i < |s| ==> IsDigit(s[i])
  {
    if s == [] then true else IsDigit(s[0]) && IsNumeric(s[1..])
  }

  // ---------------------------------------------------------------------
  // Lowercase / Uppercase
  // ---------------------------------------------------------------------

  predicate IsUpper(c: char) { 'A' <= c <= 'Z' }
  predicate IsLower(c: char) { 'a' <= c <= 'z' }

  /** tolower and toupper in the "C" locale: only ASCII letters change. */
  function ToLower(c: char): char { if IsUpper(c) then (c as int + 32) as char else c }
  function ToUpper(c: char): char { if IsLower(c) then (c as int - 32) as char else c }

  /** Index of the first NUL character, or the length when there is none:
      where the `str[i] != '\0'` loops of Lowercase and Uppercase stop. */
  function NulIndex(s: string): (n: nat)
    ensures n <= |s| && (n < |s| ==> s[n] == '\0')
    ensures forall k :: 0 <= k < n ==> s[k] != '\0'
  {
    if s == [] || s[0] == '\0' then 0 else 1 + NulIndex(s[1..])
  }

  /** The characters up to the first NUL lower-cased, the rest untouched. */
  function LowerCased(s: string): (r: string)
  {
    var n := NulIndex(s);
    seq(|s|, k requires 0 <= k < |s| => if k < n then ToLower(s[k]) else s[k])
  }

  function UpperCased(s: string): (r: string)
  {
    var n := NulIndex(s);
    seq(|s|, k requires 0 <= k < |s| => if k < n then ToUpper(s[k]) else s[k])
  }

  /** The characters of s up to its first NUL: the index is the same for s
      and for any t that agrees with s on NUL-ness up to that point. */
  lemma {:induction false} NulIndexSame(s: string, t: string)
    requires |s| == |t|
    requires forall k :: 0 <= k < |s| ==> (s[k] == '\0' <==> t[k] == '\0')
    ensures NulIndex(s) == NulIndex(t)
  {
    if s != [] && s[0] != '\0' {
      NulIndexSame(s[1..], t[1..]);
    }
  }

  /** Lowercase leaves every character that is not an upper-case ASCII letter
      unchanged, lower-cases the letters before the first NUL, and touches
      nothing after it. */
  lemma LowerCasedAt(s: string, k: nat)
    requires k < |s|
    ensures |LowerCased(s)| == |s|
    ensures !IsUpper(s[k]) ==> LowerCased(s)[k] == s[k]
    ensures k < NulIndex(s) ==> !IsUpper(LowerCased(s)[k])
    ensures k >= NulIndex(s) ==> LowerCased(s)[k] == s[k]
  {
  }

  /** Lowercase applied twice equals Lowercase applied once. */
  lemma LowerCasedIdempotent(s: string)
    ensures LowerCased(LowerCased(s)) == LowerCased(s)
  {
    NulIndexSame(s, LowerCased(s));
  }

  lemma UpperCasedIdempotent(s: string)
    ensures UpperCased(UpperCased(s)) == UpperCased(s)
  {
    NulIndexSame(s, UpperCased(s));
  }

  /** StringType::Lowercase: maps the string in place up to the first NUL
      (std::string keeps a NUL at str[size()], so the end stops it too);
      always returns true. */
  method Lowercase(str: array<char>) returns (ok: bool)
    modifies str
    ensures ok
    ensures str[..] == LowerCased(old(str[..]))
  {
    ghost var s := str[..];
    var i := 0;
    while i < str.Length && str[i] != '\0'
      invariant 0 <= i <= str.Length
      invariant forall k :: 0 <= k < i ==> s[k] != '\0' && str[k] == ToLower(s[k])
      invariant forall k :: i <= k < str.Length ==> str[k] == s[k]
    {
      str[i] := ToLower(str[i]);
      i := i + 1;
    }
    NulIndexAt(s, i);
    ok := true;
  }

  /** StringType::Uppercase, the upper-case twin of Lowercase. */
  method Uppercase(str: array<char>) returns (ok: bool)
    modifies str
    ensures ok
    ensures str[..] == UpperCased(old(str[..]))
  {
    ghost var s := str[..];
    var i := 0;
    while i < str.Length && str[i] != '\0'
      invariant 0 <= i <= str.Length
      invariant forall k :: 0 <= k < i ==> s[k] != '\0' && str[k] == ToUpper(s[k])
      invariant forall k :: i <= k < str.Length ==> str[k] == s[k]
    {
      str[i] := ToUpper(str[i]);
      i := i + 1;
    }
    NulIndexAt(s, i);
    ok := true;
  }

  /** A scan that stopped at i (at a NUL or at the end) stopped at NulIndex. */
  lemma {:induction false} NulIndexAt(s: string, i: nat)
    requires i <= |s| && (i < |s| ==> s[i] == '\0')
    requires forall k :: 0 <= k < i ==> s[k] != '\0'
    ensures NulIndex(s) == i
  {
    if i > 0 {
      NulIndexAt(s[1..], i - 1);
    }
  }
}
