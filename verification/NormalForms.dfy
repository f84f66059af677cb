/** Which texts the normalisers of `internal/monitor/vo.go` and `http_config.go` accept, and as what: told by where
  * the parts of a text stand. */
module NormalForms {
  import opened Domain
  import opened Jobs
  import opened Text
  import opened ValueObjects
  import opened Configs

  // ---- where the text stands within its padding --------------------------------------------------

  /** What is left of `s` without the padding on either side is `s[i..j]`. */
  ghost predicate PaddedAt(s: string, i: nat, j: nat, pad: char -> bool) {
    && i <= j <= |s|
    && (forall k | 0 <= k < i :: pad(s[k]))
    && (forall k | j <= k < |s| :: pad(s[k]))
    && (i < j ==> !pad(s[i]) && !pad(s[j - 1]))
  }

  lemma {:induction false} TrimLeftStops(s: string, pad: char -> bool, i: nat)
    requires i <= |s| && (forall k | 0 <= k < i :: pad(s[k])) && (i < |s| ==> !pad(s[i]))
    ensures TrimLeft(s, pad) == s[i..]
  {
    if i > 0 {
      TrimLeftStops(s[1..], pad, i - 1);
      assert s[1..][i - 1..] == s[i..];
    }
  }

  lemma {:induction false} TrimRightStops(s: string, pad: char -> bool, j: nat)
    requires j <= |s| && (forall k | j <= k < |s| :: pad(s[k])) && (j > 0 ==> !pad(s[j - 1]))
    ensures TrimRight(s, pad) == s[..j]
  {
    if j < |s| {
      TrimRightStops(s[..|s| - 1], pad, j);
      assert s[..|s| - 1][..j] == s[..j];
    } else {
      assert s[..j] == s;
    }
  }

  lemma PaddingIsTrimmed(s: string, pad: char -> bool, i: nat, j: nat)
    requires PaddedAt(s, i, j, pad)
    ensures Trim(s, pad) == s[i..j]
  {
    if i < j {
      TrimLeftStops(s, pad, i);
      TrimRightStops(s[i..], pad, j - i);
      assert s[i..][..j - i] == s[i..j];
    } else {
      TrimLeftStops(s, pad, |s|);
    }
  }

  lemma {:induction false} Padding(s: string, pad: char -> bool) returns (i: nat, j: nat)
    ensures PaddedAt(s, i, j, pad)
  {
    if s == [] {
      i, j := 0, 0;
    } else if pad(s[0]) {
      i, j := Padding(s[1..], pad);
      i, j := i + 1, j + 1;
    } else if pad(s[|s| - 1]) {
      i, j := Padding(s[..|s| - 1], pad);
    } else {
      i, j := 0, |s|;
    }
  }

  /** Space, tab, line feed, vertical tab, form feed and carriage return. */
  predicate White(c: char) {
    c == ' ' || 9 <= c as int <= 13
  }

  /** Between its white space `s` is `s[i..j]`. */
  ghost predicate SpacedAt(s: string, i: nat, j: nat) {
    && i <= j <= |s|
    && (forall k | 0 <= k < i || j <= k < |s| :: White(s[k]))
    && (i < j ==> !White(s[i]) && !White(s[j - 1]))
  }

  lemma SpacesAreTrimmed(s: string, i: nat, j: nat)
    requires SpacedAt(s, i, j)
    ensures PaddedAt(s, i, j, IsSpace) && Trim(s, IsSpace) == s[i..j]
  {
    PaddingIsTrimmed(s, IsSpace, i, j);
  }

  lemma Spacing(s: string) returns (i: nat, j: nat)
    ensures SpacedAt(s, i, j) && Trim(s, IsSpace) == s[i..j]
  {
    i, j := Padding(s, IsSpace);
    SpacesAreTrimmed(s, i, j);
  }

  // ---- paths -------------------------------------------------------------------------------------

  /** "://" stands at `k`. */
  predicate MarkAt(s: string, k: int) {
    0 <= k < |s| - 2 && s[k] == ':' && s[k + 1] == '/' && s[k + 2] == '/'
  }

  /** `raw` is white space, slashes, the text of `v` after its own slash, slashes and white space; between the white
    * space there are neither blanks nor "://". */
  ghost predicate PathAt(raw: string, i: nat, a: nat, b: nat, j: nat, v: string) {
    && i <= a <= b <= j <= |raw|
    && SpacedAt(raw, i, j)
    && (forall k | i <= k < a || b <= k < j :: raw[k] == '/')
    && (a < b ==> raw[a] != '/' && raw[b - 1] != '/')
    && v == "/" + raw[a..b]
    && (forall k | i <= k < j :: raw[k] != ' ' && raw[k] != '\t')
    && (forall k | i <= k < j - 2 :: !MarkAt(raw, k))
  }

  ghost predicate WritesPath(raw: string, v: string) {
    exists i: nat, a: nat, b: nat, j: nat :: PathAt(raw, i, a, b, j, v)
  }

  lemma PartOfSlice(s: string, i: nat, j: nat, a: nat, b: nat)
    requires i <= j <= |s| && a <= b <= j - i
    ensures s[i..j][a..b] == s[i + a..i + b]
  {
    var p, q := s[i..j][a..b], s[i + a..i + b];
    assert |p| == |q| == b - a;
    assert forall k | 0 <= k < b - a :: p[k] == s[i..j][a + k] == s[i + a + k] == q[k];
  }

  lemma SchemeMarkAt(raw: string, i: nat, j: nat)
    requires i <= j <= |raw|
    ensures Contains(raw[i..j], "://") <==> exists k :: i <= k < j - 2 && MarkAt(raw, k)
  {
    var p := raw[i..j];
    if k: nat :| k <= |p| && OccursAt(p, "://", k) {
      assert p[k] == p[k..k + 3][0] && p[k + 1] == p[k..k + 3][1] && p[k + 2] == p[k..k + 3][2];
      assert MarkAt(raw, i + k);
    }
    if k :| i <= k < j - 2 && MarkAt(raw, k) {
      assert p[k - i..k - i + 3] == "://";
      assert OccursAt(p, "://", k - i);
    }
  }

  lemma SlashesAround(raw: string, i: nat, a: nat, b: nat, j: nat, v: string)
    requires PathAt(raw, i, a, b, j, v)
    ensures PaddedAt(raw[i..j], a - i, b - i, IsSlash) && Lacks(raw[i..j], IsBlank)
  {
    var p := raw[i..j];
    assert forall k | 0 <= k < |p| :: p[k] == raw[i + k];
  }

  lemma WrittenPathIsTaken(raw: string, i: nat, a: nat, b: nat, j: nat, v: string)
    requires PathAt(raw, i, a, b, j, v)
    ensures NewPath(raw) == Ok(Path(v))
  {
    SpacesAreTrimmed(raw, i, j);
    SchemeMarkAt(raw, i, j);
    SlashesAround(raw, i, a, b, j, v);
    PaddingIsTrimmed(raw[i..j], IsSlash, a - i, b - i);
    PartOfSlice(raw, i, j, a - i, b - i);
  }

  lemma SlicedChars(raw: string, i: nat, j: nat, a: nat, b: nat)
    requires i <= j <= |raw| && PaddedAt(raw[i..j], a, b, IsSlash) && Lacks(raw[i..j], IsBlank)
    ensures forall k | i <= k < i + a || i + b <= k < j :: raw[k] == '/'
    ensures a < b ==> raw[i + a] != '/' && raw[i + b - 1] != '/'
    ensures forall k | i <= k < j :: raw[k] != ' ' && raw[k] != '\t'
  {
    assert forall k | i <= k < j :: raw[k] == raw[i..j][k - i] && !IsBlank(raw[i..j][k - i]);
  }

  lemma TakenPathIsWritten(raw: string, v: string) returns (i: nat, a: nat, b: nat, j: nat)
    requires NewPath(raw) == Ok(Path(v))
    ensures PathAt(raw, i, a, b, j, v)
  {
    i, j := Spacing(raw);
    var p := raw[i..j];
    SchemeMarkAt(raw, i, j);
    a, b := Padding(p, IsSlash);
    PaddingIsTrimmed(p, IsSlash, a, b);
    PartOfSlice(raw, i, j, a, b);
    SlicedChars(raw, i, j, a, b);
    a, b := i + a, i + b;
  }

  /** Exactly the texts that write a path are accepted, and each as the path it writes. */
  lemma {:induction false} PathExactly(raw: string, v: string)
    ensures NewPath(raw) == Ok(Path(v)) <==> WritesPath(raw, v)
  {
    if NewPath(raw) == Ok(Path(v)) {
      var i, a, b, j := TakenPathIsWritten(raw, v);
    }
    if i: nat, a: nat, b: nat, j: nat :| PathAt(raw, i, a, b, j, v) {
      WrittenPathIsTaken(raw, i, a, b, j, v);
    }
  }

  /** A blank that white space at the ends does not account for. */
  ghost predicate BlankInside(raw: string) {
    exists i, k, j :: 0 <= i < k < j < |raw| &&
                      !White(raw[i]) && (raw[k] == ' ' || raw[k] == '\t') && !White(raw[j])
  }

  ghost predicate HasSchemeMark(raw: string) {
    exists k :: MarkAt(raw, k)
  }

  lemma MarkIsWithin(raw: string, i: nat, j: nat)
    requires SpacedAt(raw, i, j)
    ensures HasSchemeMark(raw) <==> exists k :: i <= k < j - 2 && MarkAt(raw, k)
  {
    if k :| MarkAt(raw, k) {
      assert i <= k < j - 2;
    }
  }

  lemma BlankIsWithin(raw: string, i: nat, j: nat)
    requires SpacedAt(raw, i, j)
    ensures BlankInside(raw) <==> !Lacks(raw[i..j], IsBlank)
  {
    var p := raw[i..j];
    if k :| 0 <= k < |p| && IsBlank(p[k]) {
      assert i < i + k < j - 1;
    }
    if a, k, b :| 0 <= a < k < b < |raw| && !White(raw[a]) && (raw[k] == ' ' || raw[k] == '\t') && !White(raw[b]) {
      assert p[k - i] == raw[k];
    }
  }

  /** What is refused as a path is what has "://" anywhere or a blank inside. */
  lemma PathRefusedExactly(raw: string)
    ensures NewPath(raw).Err? <==> HasSchemeMark(raw) || BlankInside(raw)
    ensures NewPath(raw).Err? ==> NewPath(raw).error == InvalidPath
  {
    var i, j := Spacing(raw);
    SchemeMarkAt(raw, i, j);
    MarkIsWithin(raw, i, j);
    BlankIsWithin(raw, i, j);
  }

  predicate AllAre(s: string, p: char -> bool) {
    forall i | 0 <= i < |s| :: p(s[i])
  }

  /** The text of a path without "://", between slashes and white space. */
  ghost predicate PathBetween(raw: string, i: nat, a: nat, b: nat, j: nat, v: string) {
    && i <= a <= b <= j <= |raw|
    && SpacedAt(raw, i, j)
    && (forall k | i <= k < a || b <= k < j :: raw[k] == '/')
    && v == "/" + raw[a..b]
  }

  lemma PathBetweenAccepts(raw: string, i: nat, a: nat, b: nat, j: nat, v: string)
    requires PathBetween(raw, i, a, b, j, v) && CanonicalPath(v) && !HasSchemeMark(v) && Lacks(v, IsBlank)
    ensures if a < b && raw[b - 1] == ':' && j - b >= 2 then NewPath(raw) == Err(InvalidPath)
            else NewPath(raw) == Ok(Path(v))
  {
    assert forall k | a <= k < b :: raw[k] == v[1 + (k - a)];
    if a < b && raw[b - 1] == ':' && j - b >= 2 {
      assert MarkAt(raw, b - 1);
      PathRefusedExactly(raw);
    } else {
      forall k | i <= k < j - 2
        ensures !MarkAt(raw, k)
      {
        if MarkAt(raw, k) {
          assert a <= k < b;
          assert k + 2 < b ==> MarkAt(v, 1 + (k - a));
        }
      }
      assert PathAt(raw, i, a, b, j, v);
      WrittenPathIsTaken(raw, i, a, b, j, v);
    }
  }

  lemma JoinedBetween(before: string, left: string, v: string, right: string, after: string, raw: string)
    requires v != "" && v[0] == '/' && raw == before + left + v[1..] + right + after
    requires AllAre(before, White) && AllAre(after, White)
    requires (forall k | 0 <= k < |left| :: left[k] == '/') && (forall k | 0 <= k < |right| :: right[k] == '/')
    requires |v| > 1 ==> (left == "" ==> !White(v[1])) && (right == "" ==> !White(v[|v| - 1]))
    ensures var i, a := |before|, |before| + |left|;
            var b := a + |v| - 1;
            PathBetween(raw, i, a, b, b + |right|, v) && raw[a..b] == v[1..]
  {
    var i, a := |before|, |before| + |left|;
    var b := a + |v| - 1;
    assert forall k | i <= k < a :: raw[k] == left[k - i];
    assert raw[a..b] == v[1..] && v == "/" + v[1..];
    assert forall k | b <= k < b + |right| :: raw[k] == right[k - b];
  }

  /** A path is taken from every way of writing it, except that a final colon and two slashes make a "://". */
  lemma PathAccepts(before: string, left: string, v: string, right: string, after: string, raw: string)
    requires CanonicalPath(v) && !HasSchemeMark(v) && Lacks(v, IsBlank)
    requires raw == before + left + v[1..] + right + after
    requires AllAre(before, White) && AllAre(after, White)
    requires (forall k | 0 <= k < |left| :: left[k] == '/') && (forall k | 0 <= k < |right| :: right[k] == '/')
    requires |v| > 1 ==> (left == "" ==> !White(v[1])) && (right == "" ==> !White(v[|v| - 1]))
    ensures if v[|v| - 1] == ':' && |right| >= 2 then NewPath(raw) == Err(InvalidPath) else NewPath(raw) == Ok(Path(v))
  {
    JoinedBetween(before, left, v, right, after, raw);
    var a := |before| + |left|;
    var b := a + |v| - 1;
    LastOfPath(raw, a, b, v);
    PathBetweenAccepts(raw, |before|, a, b, b + |right|, v);
  }

  lemma LastOfPath(raw: string, a: nat, b: nat, v: string)
    requires a <= b <= |raw| && v != "" && v[0] == '/' && raw[a..b] == v[1..]
    ensures a < b && raw[b - 1] == ':' <==> v[|v| - 1] == ':'
  {
    assert a < b ==> raw[b - 1] == raw[a..b][b - 1 - a] == v[1..][|v| - 2] == v[|v| - 1];
  }

  // ---- letters -----------------------------------------------------------------------------------

  /** The same letter but for its case, or the same character. */
  predicate SameLetter(c: char, d: char) {
    || c == d
    || ('a' <= c <= 'z' && c as int == d as int + 32)
    || ('A' <= c <= 'Z' && d as int == c as int + 32)
  }

  predicate SameLetters(s: string, t: string) {
    |s| == |t| && forall i | 0 <= i < |s| :: SameLetter(s[i], t[i])
  }

  predicate HasNoCapital(s: string) {
    forall i | 0 <= i < |s| :: !('A' <= s[i] <= 'Z')
  }

  predicate HasNoSmall(s: string) {
    forall i | 0 <= i < |s| :: !('a' <= s[i] <= 'z')
  }

  lemma LowerIsSame(s: string, t: string)
    ensures Lower(s) == t <==> SameLetters(s, t) && HasNoCapital(t)
  {
    forall i | 0 <= i < |s|
      ensures Lower(s)[i] == LowerChar(s[i])
    {
      LowerAt(s, i);
    }
  }

  lemma {:induction false} UpperAt(s: string, i: nat)
    requires i < |s|
    ensures Upper(s)[i] == UpperChar(s[i])
  {
    if i > 0 {
      UpperAt(s[1..], i - 1);
    }
  }

  lemma UpperIsSame(s: string, t: string)
    ensures Upper(s) == t <==> SameLetters(s, t) && HasNoSmall(t)
  {
    forall i | 0 <= i < |s|
      ensures Upper(s)[i] == UpperChar(s[i])
    {
      UpperAt(s, i);
    }
  }

  // ---- schemes and methods -----------------------------------------------------------------------

  /** `raw` is `word` in any case, between white space. */
  ghost predicate Says(raw: string, word: string) {
    exists i: nat, j: nat :: SaysAt(raw, word, i, j)
  }

  ghost predicate SaysAt(raw: string, word: string, i: nat, j: nat) {
    SpacedAt(raw, i, j) && SameLetters(raw[i..j], word)
  }

  lemma SaysTrimmed(raw: string, word: string)
    ensures Says(raw, word) <==> SameLetters(Trim(raw, IsSpace), word)
  {
    var i, j := Spacing(raw);
    if SameLetters(Trim(raw, IsSpace), word) {
      assert SaysAt(raw, word, i, j);
    }
    if a: nat, b: nat :| SaysAt(raw, word, a, b) {
      SpacesAreTrimmed(raw, a, b);
    }
  }

  /** A scheme is "http" or "https" in any case, between white space; a method likewise "get" or "head". Anything else
    * is refused. */
  lemma SchemeExactly(raw: string)
    ensures ParseScheme(raw) == Ok(SchemeHTTP) <==> Says(raw, "http")
    ensures ParseScheme(raw) == Ok(SchemeHTTPS) <==> Says(raw, "https")
    ensures ParseScheme(raw) == Err(InvalidScheme) <==> !Says(raw, "http") && !Says(raw, "https")
  {
    SaysTrimmed(raw, "http");
    SaysTrimmed(raw, "https");
    LowerIsSame(Trim(raw, IsSpace), "http");
    LowerIsSame(Trim(raw, IsSpace), "https");
  }

  lemma MethodExactly(raw: string)
    ensures ParseMethod(raw) == Ok(MethodGET) <==> Says(raw, "GET")
    ensures ParseMethod(raw) == Ok(MethodHEAD) <==> Says(raw, "HEAD")
    ensures ParseMethod(raw) == Err(MethodNotAllowed) <==> !Says(raw, "GET") && !Says(raw, "HEAD")
  {
    SaysTrimmed(raw, "GET");
    SaysTrimmed(raw, "HEAD");
    UpperIsSame(Trim(raw, IsSpace), "GET");
    UpperIsSame(Trim(raw, IsSpace), "HEAD");
  }

  // ---- hosts -------------------------------------------------------------------------------------

  /** A name or IPv4 address, as far as the parser looks. */
  predicate IsName(v: string) {
    && v != "" && v[0] != '['
    && forall k | 0 <= k < |v| :: v[k] != ' ' && v[k] != '\t' && v[k] != '/' && v[k] != ':'
  }

  /** How a host is written: an address with a colon in brackets, anything else as it is. */
  function HostText(v: string): string {
    if ':' in v then "[" + v + "]" else v
  }

  predicate EndsInDot(s: string) {
    s != "" && s[|s| - 1] == '.'
  }

  /** The host's text in any case, perhaps with a dot after it, stands in `raw` between white space. */
  ghost predicate HostAt(raw: string, i: nat, j: nat, v: string) {
    SpacedAt(raw, i, j) && IsDotted(raw[i..j], HostText(v))
  }

  predicate IsDotted(core: string, text: string) {
    SameLetters(core, text + ".") || (SameLetters(core, text) && !EndsInDot(text))
  }

  ghost predicate WritesHost(raw: string, v: string) {
    exists i: nat, j: nat :: HostAt(raw, i, j, v)
  }

  lemma DottedExactly(core: string, text: string)
    ensures TrimDot(Lower(core)) == text <==> IsDotted(core, text) && HasNoCapital(text)
  {
    LowerIsSame(core, text);
    LowerIsSame(core, text + ".");
    assert HasNoCapital(text + ".") <==> HasNoCapital(text) by {
      assert (text + ".")[..|text|] == text;
      assert forall k | 0 <= k < |text| :: (text + ".")[k] == text[k];
    }
    assert (text + ".")[..|text|] == text;
    var w := Lower(core);
    assert EndsInDot(w) ==> w == w[..|w| - 1] + ".";
  }

  lemma ParsedExactly(h: string, parsesIP: ParsesIP, v: string)
    ensures ParseHost(h, parsesIP) == Ok(Host(v)) <==>
              h == HostText(v) && if ':' in v then parsesIP(v) else IsName(v)
  {
    if ':' in v {
      assert HostText(v)[1..|v| + 1] == v;
    }
    if h != [] && h[0] == '[' && h[|h| - 1] == ']' {
      assert h == "[" + h[1..|h| - 1] + "]";
    }
  }

  lemma WritesTrimmed(raw: string, v: string)
    ensures WritesHost(raw, v) <==> IsDotted(Trim(raw, IsSpace), HostText(v))
  {
    var i, j := Spacing(raw);
    if IsDotted(Trim(raw, IsSpace), HostText(v)) {
      assert HostAt(raw, i, j, v);
    }
    if a: nat, b: nat :| HostAt(raw, a, b, v) {
      SpacesAreTrimmed(raw, a, b);
    }
  }

  /** Exactly the texts that write a host are accepted, and each as the host it writes, in lower case: an IPv6 address
    * in brackets, or a name or other address without brackets, colon, slash or blank. */
  lemma HostExactly(raw: string, parsesIP: ParsesIP, v: string)
    ensures NewHost(raw, parsesIP) == Ok(Host(v)) <==>
              && WritesHost(raw, v) && HasNoCapital(v)
              && if ':' in v then parsesIP(v) else IsName(v)
  {
    WritesTrimmed(raw, v);
    DottedExactly(Trim(raw, IsSpace), HostText(v));
    ParsedExactly(NormalHost(raw), parsesIP, v);
    assert HasNoCapital(HostText(v)) <==> HasNoCapital(v) by {
      if ':' in v {
        assert forall k | 0 <= k < |v| :: HostText(v)[k + 1] == v[k];
      }
    }
  }

  /** What is refused is an empty text, or else an invalid one. */
  lemma HostRefused(raw: string, parsesIP: ParsesIP)
    requires NewHost(raw, parsesIP).Err?
    ensures NewHost(raw, parsesIP).error == if WritesHost(raw, "") then EmptyHost else InvalidHost
  {
    WritesTrimmed(raw, "");
    DottedExactly(Trim(raw, IsSpace), "");
  }
}
