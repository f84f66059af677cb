/** The validated values of a monitor (`internal/monitor/vo.go`): second counts held as int64 durations, hosts and
  * paths in normal form. */
module ValueObjects {
  import opened Domain
  import opened Jobs
  import opened Text

  // ---- durations ---------------------------------------------------------------------------------

  const TWO_63 := 0x8000_0000_0000_0000

  const TWO_64 := 0x1_0000_0000_0000_0000

  /** The largest number of seconds whose nanoseconds fit an int64. */
  const MAX_SECONDS := 9_223_372_036

  predicate IsInt64(x: int) {
    -TWO_63 <= x < TWO_63
  }

  /** An int64 result: the representative of `x` modulo 2^64 that fits. */
  function Wrap64(x: int): (w: int)
    ensures IsInt64(w)
    decreases if IsInt64(x) then 0 else if x < 0 then -x else x
  {
    if x >= TWO_63 then Wrap64(x - TWO_64) else if x < -TWO_63 then Wrap64(x + TWO_64) else x
  }

  lemma {:induction false} WrapIsCongruent(x: int)
    ensures (x - Wrap64(x)) % TWO_64 == 0
    decreases if IsInt64(x) then 0 else if x < 0 then -x else x
  {
    if x >= TWO_63 {
      WrapIsCongruent(x - TWO_64);
    } else if x < -TWO_63 {
      WrapIsCongruent(x + TWO_64);
    }
  }

  /** `time.Duration(seconds) * time.Second`. */
  function FromSeconds(seconds: int): Duration {
    Wrap64(seconds * SECOND)
  }

  /** `int(d / time.Second)`: Go's division truncates toward zero. */
  function Seconds(d: Duration): int {
    if d >= 0 then d / SECOND else -(-d / SECOND)
  }

  const DEFAULT_INTERVAL := 60

  const DEFAULT_TIMEOUT := 10

  const DEFAULT_ATTEMPTS := 3

  const MIN_INTERVAL := 10

  const MIN_TIMEOUT := 2

  const MIN_ATTEMPTS := 1

  function NewInterval(i: int): Result<Duration> {
    if i == 0 then Ok(FromSeconds(DEFAULT_INTERVAL))
    else if i < MIN_INTERVAL then Err(IntervalTooSmall)
    else Ok(FromSeconds(i))
  }

  function NewTimeout(t: int): Result<Duration> {
    if t == 0 then Ok(FromSeconds(DEFAULT_TIMEOUT))
    else if t < MIN_TIMEOUT then Err(TimeoutTooSmall)
    else Ok(FromSeconds(t))
  }

  function NewMaxAttempts(c: int): Result<int> {
    if c == 0 then Ok(DEFAULT_ATTEMPTS)
    else if c < MIN_ATTEMPTS then Err(MaxAttemptsTooSmall)
    else Ok(c)
  }

  /** Zero stands for the default, anything else must reach the minimum; within the bound the seconds are kept. */
  lemma PaceExactly(s: int)
    ensures NewInterval(s).Ok? <==> s == 0 || s >= 10
    ensures NewTimeout(s).Ok? <==> s == 0 || s >= 2
    ensures NewMaxAttempts(s).Ok? <==> s >= 0
    ensures NewInterval(0) == Ok(60 * SECOND) && NewTimeout(0) == Ok(10 * SECOND) && NewMaxAttempts(0) == Ok(3)
    ensures s > 0 && NewMaxAttempts(s).Ok? ==> NewMaxAttempts(s).value == s
    ensures s > 0 && NewInterval(s).Ok? ==> (Seconds(NewInterval(s).value) == s <==> s <= MAX_SECONDS)
    ensures s > 0 && NewTimeout(s).Ok? ==> (Seconds(NewTimeout(s).value) == s <==> s <= MAX_SECONDS)
  {
    if s > 0 {
      SecondsRoundTrip(s);
    }
  }

  /** A duration that storage keeps: a whole number of seconds that fits. */
  predicate WholeSeconds(d: Duration) {
    IsInt64(d) && d % SECOND == 0
  }

  /** Writing a duration as seconds and reading it back keeps it exactly when it is a whole number of seconds;
    * what is read back always is one. */
  lemma StoredDuration(d: Duration)
    requires IsInt64(d)
    ensures FromSeconds(Seconds(d)) == d <==> WholeSeconds(d)
    ensures WholeSeconds(FromSeconds(Seconds(d)))
  {
    assert IsInt64(Seconds(d) * SECOND);
  }

  /** A count of seconds that some int64 duration has. */
  predicate IsCount(seconds: int) {
    -MAX_SECONDS <= seconds <= MAX_SECONDS
  }

  /** What is written of a duration is such a count, and read back it keeps its sign. */
  lemma CountKeepsSign(d: Duration, seconds: int)
    ensures IsInt64(d) ==> IsCount(Seconds(d))
    ensures IsCount(seconds) ==> FromSeconds(seconds) == seconds * SECOND
  {
  }

  /** A positive count of seconds survives as a duration exactly up to `MAX_SECONDS`. */
  lemma SecondsRoundTrip(s: int)
    requires s >= 0
    ensures Seconds(FromSeconds(s)) == s <==> s <= MAX_SECONDS
    ensures s <= MAX_SECONDS ==> FromSeconds(s) == s * SECOND && WholeSeconds(FromSeconds(s))
  {
    var d := FromSeconds(s);
    assert Seconds(d) <= MAX_SECONDS;
  }

  /** One second more and the interval is accepted but negative, and stored as still another number of seconds. */
  lemma FirstOverflow()
    ensures NewInterval(MAX_SECONDS + 1).Ok? && NewInterval(MAX_SECONDS + 1).value < 0
    ensures Seconds(FromSeconds(MAX_SECONDS + 1)) == -MAX_SECONDS
    ensures FromSeconds(-MAX_SECONDS) != FromSeconds(MAX_SECONDS + 1)
  {
    assert Wrap64((MAX_SECONDS + 1) * SECOND) == Wrap64((MAX_SECONDS + 1) * SECOND - TWO_64);
  }

  // ---- hosts -------------------------------------------------------------------------------------

  predicate HostSeparator(c: char) {
    c == ' ' || c == '\t' || c == '/'
  }

  /** `net.ParseIP(s) != nil`, which this model leaves open. */
  type ParsesIP = string -> bool

  function NormalHost(raw: string): string {
    TrimDot(Lower(Trim(raw, IsSpace)))
  }

  function NewHost(raw: string, parsesIP: ParsesIP): Result<Host> {
    ParseHost(NormalHost(raw), parsesIP)
  }

  function ParseHost(h: string, parsesIP: ParsesIP): Result<Host> {
    if h == [] then Err(EmptyHost)
    else if h[0] == '[' then
      if h[|h| - 1] != ']' then Err(InvalidHost)
      else
        var inner := h[1..|h| - 1];
        if ':' !in inner || !parsesIP(inner) then Err(InvalidHost) else Ok(Host(inner))
    else if !Lacks(h, HostSeparator) || ':' in h then Err(InvalidHost)
    else Ok(Host(h))
  }

  /** An address with a colon is a bare IPv6 address, which section 3.2.2 of RFC 3986 puts in brackets. */
  function Authority(h: Host): string {
    if ':' in h.value then "[" + h.value + "]" else h.value
  }

  /** What normalisation leaves is in lower case and has no white space in front. */
  lemma NormalHostIsNormal(raw: string)
    ensures IsLower(NormalHost(raw))
    ensures NormalHost(raw) != [] ==> !IsSpace(NormalHost(raw)[0])
    ensures PlainSpaces(raw) ==> PlainSpaces(NormalHost(raw))
  {
    var t := Trim(raw, IsSpace);
    TrimIsPart(raw, IsSpace);
    PartKeeps(raw, t, IsSpace);
    LowerIsLower(t);
    TrimDotIsPart(Lower(t));
    PartKeeps(Lower(t), TrimDot(Lower(t)), IsSpace);
    if t != [] {
      LowerAt(t, 0);
    }
  }

  /** A parsed host is in lower case, has a colon only if it is an IPv6 address, and otherwise is the text parsed. */
  lemma ParsedHost(d: string, parsesIP: ParsesIP, v: string)
    requires IsLower(d) && ParseHost(d, parsesIP) == Ok(Host(v))
    ensures v != [] && IsLower(v)
    ensures ':' in v ==> parsesIP(v)
    ensures ':' !in v ==> v == d && v[0] != '[' && Lacks(v, HostSeparator)
  {
    if d[0] == '[' {
      assert OccursAt(d, v, 1);
      PartKeeps(d, v, HostSeparator);
    }
  }

  /** A host that is not an IPv6 address and ends in a dot or in white space. */
  predicate EndsLoosely(h: Host) {
    h.value != [] && ':' !in h.value && (h.value[|h.value| - 1] == '.' || IsSpace(h.value[|h.value| - 1]))
  }

  /** Text in lower case, with nothing to cut at its ends, is its own normal form. */
  lemma NormalHostFixes(a: string)
    requires a != [] && IsLower(a) && !IsSpace(a[0]) && !IsSpace(a[|a| - 1]) && a[|a| - 1] != '.'
    ensures NormalHost(a) == a
  {
    LowerFixes(a);
  }

  lemma NormalHostShortens(a: string)
    requires a != [] && IsLower(a) && !IsSpace(a[0]) && (IsSpace(a[|a| - 1]) || a[|a| - 1] == '.')
    ensures |NormalHost(a)| < |a|
  {
    TrimRightIsPrefix(a, IsSpace);
    if !IsSpace(a[|a| - 1]) {
      LowerFixes(a);
    } else {
      TrimRightIsPrefix(a[..|a| - 1], IsSpace);
    }
  }

  lemma BracketsLower(v: string)
    requires IsLower(v)
    ensures IsLower("[" + v + "]")
  {
  }

  /** Printing an accepted host and parsing it again gives it back, exactly unless it ends loosely. */
  lemma HostRoundTrip(raw: string, parsesIP: ParsesIP, h: Host)
    requires NewHost(raw, parsesIP) == Ok(h)
    ensures NewHost(Authority(h), parsesIP) == Ok(h) <==> !EndsLoosely(h)
  {
    var d := NormalHost(raw);
    NormalHostIsNormal(raw);
    ParsedHost(d, parsesIP, h.value);
    PrintedParses(h.value, parsesIP);
  }

  lemma PrintedParses(v: string, parsesIP: ParsesIP)
    requires v != [] && IsLower(v)
    requires ':' in v ==> parsesIP(v)
    requires ':' !in v ==> v[0] != '[' && !IsSpace(v[0]) && Lacks(v, HostSeparator)
    ensures NewHost(Authority(Host(v)), parsesIP) == Ok(Host(v)) <==> !EndsLoosely(Host(v))
  {
    if ':' in v {
      BracketsLower(v);
      NormalHostFixes("[" + v + "]");
      assert ("[" + v + "]")[1..|v| + 1] == v;
    } else if EndsLoosely(Host(v)) {
      NormalHostShortens(v);
      ShorterDiffers(NormalHost(v), parsesIP, v);
    } else {
      NormalHostFixes(v);
    }
  }

  lemma ShorterDiffers(d: string, parsesIP: ParsesIP, v: string)
    requires |d| < |v|
    ensures ParseHost(d, parsesIP) != Ok(Host(v))
  {
  }

  /** With no white space but spaces and tabs in the input, only a final dot is in the way. */
  lemma HostRoundTripPlain(raw: string, parsesIP: ParsesIP, h: Host)
    requires PlainSpaces(raw) && NewHost(raw, parsesIP) == Ok(h)
    ensures h.value != []
    ensures NewHost(Authority(h), parsesIP) == Ok(h) <==> ':' in h.value || h.value[|h.value| - 1] != '.'
  {
    HostRoundTrip(raw, parsesIP, h);
    NormalHostIsNormal(raw);
    ParsedHost(NormalHost(raw), parsesIP, h.value);
    assert ':' !in h.value ==> !HostSeparator(h.value[|h.value| - 1]);
  }

  /** `Authority` tells hosts apart. */
  lemma AuthorityIsInjective(a: Host, b: Host)
    requires Authority(a) == Authority(b)
    ensures a == b
  {
    assert ':' in a.value ==> ':' in Authority(a);
    assert ':' in b.value ==> ':' in Authority(b);
    if ':' in a.value {
      assert Authority(a)[1..|Authority(a)| - 1] == a.value;
      assert Authority(b)[1..|Authority(b)| - 1] == b.value;
    }
  }

  // ---- paths -------------------------------------------------------------------------------------

  function NewPath(raw: string): Result<Path> {
    ParsePath(Trim(raw, IsSpace))
  }

  function ParsePath(p: string): Result<Path> {
    if Contains(p, "://") || !Lacks(p, IsBlank) then Err(InvalidPath)
    else Ok(Path("/" + Trim(p, IsSlash)))
  }

  /** A leading slash, and no other slash at either end. */
  predicate CanonicalPath(v: string) {
    v != [] && v[0] == '/' && (|v| > 1 ==> v[1] != '/' && v[|v| - 1] != '/')
  }

  lemma ParsedPath(p: string, v: string)
    requires ParsePath(p) == Ok(Path(v))
    ensures CanonicalPath(v) && !Contains(v, "://") && Lacks(v, IsBlank)
    ensures PlainSpaces(p) ==> PlainSpaces(v)
  {
    var t := Trim(p, IsSlash);
    TrimIsPart(p, IsSlash);
    PartKeeps(p, t, IsBlank);
    assert v == "/" + t;
    if Contains(v, "://") {
      SchemeMarkAfterSlash(t);
      PartOfPart(p, t, "://");
    }
  }

  /** Every path accepted is canonical. */
  lemma PathIsCanonical(raw: string)
    requires NewPath(raw).Ok?
    ensures CanonicalPath(NewPath(raw).value.value)
  {
    ParsedPath(Trim(raw, IsSpace), NewPath(raw).value.value);
  }

  lemma SchemeMarkAfterSlash(t: string)
    requires Contains("/" + t, "://")
    ensures Contains(t, "://")
  {
    var v := "/" + t;
    var k: nat :| k <= |v| && OccursAt(v, "://", k);
    assert v[k..k + 3][0] == ':';
    assert v[k..k + 3] == t[k - 1..k + 2];
    assert OccursAt(t, "://", k - 1);
  }

  lemma SpaceShortens(v: string)
    requires v != [] && IsSpace(v[|v| - 1]) && !IsSpace(v[0])
    ensures |Trim(v, IsSpace)| < |v|
  {
    TrimRightIsPrefix(v[..|v| - 1], IsSpace);
  }

  lemma ShorterPathDiffers(p: string, v: string)
    requires |p| < |v| && p != [] && p[0] == '/'
    ensures ParsePath(p) != Ok(Path(v))
  {
    assert Trim(p, IsSlash) == Trim(p[1..], IsSlash);
    TrimLeftIsSuffix(p[1..], IsSlash);
    TrimRightIsPrefix(TrimLeft(p[1..], IsSlash), IsSlash);
  }

  lemma SlashesTrimmed(v: string)
    requires CanonicalPath(v)
    ensures "/" + Trim(v, IsSlash) == v
  {
    assert TrimLeft(v, IsSlash) == TrimLeft(v[1..], IsSlash) == v[1..];
  }

  lemma TrimKeepsHead(v: string)
    requires v != [] && !IsSpace(v[0])
    ensures Trim(v, IsSpace) != [] && Trim(v, IsSpace)[0] == v[0]
  {
    HeadStays(v);
  }

  lemma {:induction false} HeadStays(v: string)
    requires v != [] && !IsSpace(v[0])
    ensures TrimRight(v, IsSpace) != [] && TrimRight(v, IsSpace)[0] == v[0]
  {
    if IsSpace(v[|v| - 1]) {
      HeadStays(v[..|v| - 1]);
    }
  }

  /** `NewPath` accepts what it returned and leaves it as it is, exactly unless that ends in white space. */
  lemma PathRoundTrip(raw: string, path: Path)
    requires NewPath(raw) == Ok(path)
    ensures path.value != []
    ensures NewPath(path.value) == Ok(path) <==> !IsSpace(path.value[|path.value| - 1])
  {
    var v := path.value;
    ParsedPath(Trim(raw, IsSpace), v);
    if IsSpace(v[|v| - 1]) {
      SpaceShortens(v);
      TrimKeepsHead(v);
      ShorterPathDiffers(Trim(v, IsSpace), v);
    } else {
      SlashesTrimmed(v);
      assert Trim(v, IsSpace) == v;
    }
  }

  /** With no white space but spaces and tabs in the input, normalising a path twice is normalising it once. */
  lemma PathRoundTripPlain(raw: string, path: Path)
    requires PlainSpaces(raw) && NewPath(raw) == Ok(path)
    ensures NewPath(path.value) == Ok(path)
  {
    PathRoundTrip(raw, path);
    TrimIsPart(raw, IsSpace);
    PartKeeps(raw, Trim(raw, IsSpace), IsSpace);
    ParsedPath(Trim(raw, IsSpace), path.value);
    assert !IsBlank(path.value[|path.value| - 1]);
  }
}
