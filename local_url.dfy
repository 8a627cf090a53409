/**
 * The test suite's "is this a local address" check on a URL.
 *
 * The check is a single case-insensitive regular expression, anchored at the
 * start: scheme `http` or `https` and `://`; then one of the hosts `localhost`,
 * `127.0.0.1`, or a dotted address in 10/8, 192.168/16 or 172.16/12 whose octets
 * are runs of one to three decimal digits (the second octet of a 172 address
 * is 16..31, written with two digits); then an optional `:` and a non-empty
 * run of digits; then the end of the string or one of `/`, `?`, `#` (what
 * follows is not looked at).
 *
 * Two definitions are given and proved equal:
 *  - MatchesLocalPattern reads the pattern as a language: some positions cut
 *    the URL into a scheme, a host and a port/boundary part, each in its own
 *    language (the regular expression's backtracking tries all such cuts);
 *  - IsLocalUrl is a deterministic left-to-right scanner that consumes each
 *    digit run whole (every digit run in the pattern is followed by a non-digit).
 */
module LocalUrl {
  import opened Wrappers

  predicate IsDigit(c: char) { '0' <= c <= '9' }

  /** Case folding of the ASCII letters; all the pattern's literals are ASCII, and
      the case-insensitive flag never folds a non-ASCII character onto ASCII. */
  function Fold(c: char): char {
    if 'A' <= c <= 'Z' then (c as int + 32) as char else c
  }

  predicate SameIgnoringCase(s: string, literal: string) {
    |s| == |literal| && forall i :: 0 <= i < |s| ==> Fold(s[i]) == Fold(literal[i])
  }

  // ---------------------------------------------------------------------------
  // The pattern read as a language, over positions of the URL `x`
  // ---------------------------------------------------------------------------

  /** `x[a..b]` is all digits. */
  predicate DigitsIn(x: string, a: nat, b: nat) {
    a <= b <= |x| && forall k :: a <= k < b ==> IsDigit(x[k])
  }

  /** `x[a..b]` is one octet: one to three digits, not range-checked. */
  predicate OctetIn(x: string, a: nat, b: nat) {
    a + 1 <= b <= a + 3 && DigitsIn(x, a, b)
  }

  /** The second octet of a 172 address: 16..19, 20..29, 30 or 31, as two characters. */
  predicate Private172Second(s: string) {
    && |s| == 2
    && (|| (s[0] == '1' && '6' <= s[1] <= '9')
        || (s[0] == '2' && IsDigit(s[1]))
        || (s[0] == '3' && '0' <= s[1] <= '1'))
  }

  /** `x[a..b]` is `n` octets joined by dots. */
  ghost predicate DottedOctetsIn(x: string, a: nat, b: nat, n: nat)
    decreases n
  {
    if n <= 1 then n == 1 && OctetIn(x, a, b)
    else exists i: nat {:trigger OctetIn(x, a, i)} :: a < i < b <= |x| && OctetIn(x, a, i) && x[i] == '.' && DottedOctetsIn(x, i + 1, b, n - 1)
  }

  /** `x[..i]` is `http://` or `https://`, in any case. */
  ghost predicate SchemeIn(x: string, i: nat) {
    i <= |x| && (SameIgnoringCase(x[..i], "http://") || SameIgnoringCase(x[..i], "https://"))
  }

  /** `x[a..b]` is one of the local hosts. */
  ghost predicate LocalHostIn(x: string, a: nat, b: nat) {
    && a <= b <= |x|
    && (|| SameIgnoringCase(x[a..b], "localhost")
        || x[a..b] == "127.0.0.1"
        || (a + 3 < b && x[a..a + 3] == "10." && DottedOctetsIn(x, a + 3, b, 3))
        || (a + 8 < b && x[a..a + 8] == "192.168." && DottedOctetsIn(x, a + 8, b, 2))
        || (a + 7 < b && x[a..a + 4] == "172." && Private172Second(x[a + 4..a + 6]) && x[a + 6] == '.'
            && DottedOctetsIn(x, a + 7, b, 2)))
  }

  /** The end of the string, or one of `/`, `?`, `#` at `b`. */
  predicate BoundaryAt(x: string, b: nat) {
    b <= |x| && (b == |x| || x[b] == '/' || x[b] == '?' || x[b] == '#')
  }

  /** From `b` on: an optional `:` and digits, then a boundary. */
  ghost predicate PortThenBoundaryFrom(x: string, b: nat) {
    || BoundaryAt(x, b)
    || exists k: nat :: b + 2 <= k <= |x| && x[b] == ':' && DigitsIn(x, b + 1, k) && BoundaryAt(x, k)
  }

  /** Some cut of the URL gives a scheme, a local host and a port/boundary part, in that order. */
  ghost predicate MatchesLocalPattern(x: string): (r: bool)
    ensures r ==> SchemeIn(x, 7) || SchemeIn(x, 8)
  {
    exists i: nat, j: nat :: i <= j <= |x| && SchemeIn(x, i) && LocalHostIn(x, i, j) && PortThenBoundaryFrom(x, j)
  }

  // ---------------------------------------------------------------------------
  // The scanner
  // ---------------------------------------------------------------------------

  predicate At(x: string, p: nat, literal: string) {
    p + |literal| <= |x| && x[p..p + |literal|] == literal
  }

  predicate AtIgnoringCase(x: string, p: nat, literal: string) {
    p + |literal| <= |x| && SameIgnoringCase(x[p..p + |literal|], literal)
  }

  /** The length of the run of digits that starts at `p`. */
  function DigitRun(x: string, p: nat): (n: nat)
    requires p <= |x|
    ensures p + n <= |x|
    ensures p + n < |x| ==> !IsDigit(x[p + n])
    decreases |x| - p
  {
    if p < |x| && IsDigit(x[p]) then 1 + DigitRun(x, p + 1) else 0
  }

  /** Where `n` dotted octets that start at `p` end. */
  function DottedOctetsEnd(x: string, p: nat, n: nat): (r: Option<nat>)
    requires p <= |x|
    ensures r.Some? ==> p < r.value <= |x|
    decreases n
  {
    var run := DigitRun(x, p);
    if n == 0 || run < 1 || 3 < run then None
    else if n == 1 then Some(p + run)
    else if p + run < |x| && x[p + run] == '.' then DottedOctetsEnd(x, p + run + 1, n - 1)
    else None
  }

  /** Where the host that starts at `p` ends, trying the alternatives in the pattern's order. */
  function HostEnd(x: string, p: nat): (r: Option<nat>)
    requires p <= |x|
    ensures r.Some? ==> p < r.value <= |x|
  {
    if AtIgnoringCase(x, p, "localhost") then Some(p + 9)
    else if At(x, p, "127.0.0.1") then Some(p + 9)
    else if At(x, p, "10.") then DottedOctetsEnd(x, p + 3, 3)
    else if At(x, p, "192.168.") then DottedOctetsEnd(x, p + 8, 2)
    else if At(x, p, "172.") && p + 7 <= |x| && Private172Second(x[p + 4..p + 6]) && x[p + 6] == '.' then
      DottedOctetsEnd(x, p + 7, 2)
    else None
  }

  function SchemeEnd(x: string): (r: Option<nat>)
    ensures r.Some? ==> r.value <= |x|
  {
    if AtIgnoringCase(x, 0, "http://") then Some(7)
    else if AtIgnoringCase(x, 0, "https://") then Some(8)
    else None
  }

  predicate PortThenBoundaryAt(x: string, q: nat)
    requires q <= |x|
  {
    || BoundaryAt(x, q)
    || (q < |x| && x[q] == ':' && var run := DigitRun(x, q + 1); 1 <= run && BoundaryAt(x, q + 1 + run))
  }

  /** The scanner's verdict on a URL. */
  predicate IsLocalUrl(x: string): (r: bool)
    ensures r ==> AtIgnoringCase(x, 0, "http://") || AtIgnoringCase(x, 0, "https://")
  {
    match SchemeEnd(x)
    case None => false
    case Some(p) =>
      match HostEnd(x, p)
      case None => false
      case Some(q) => PortThenBoundaryAt(x, q)
  }

  // ---------------------------------------------------------------------------
  // The scanner decides the pattern's language
  // ---------------------------------------------------------------------------

  /** What DigitRun measures is all digits. */
  lemma {:induction false} DigitRunIsDigits(x: string, p: nat)
    requires p <= |x|
    ensures DigitsIn(x, p, p + DigitRun(x, p))
    decreases |x| - p
  {
    if p < |x| && IsDigit(x[p]) {
      DigitRunIsDigits(x, p + 1);
    }
  }

  /** A digit run followed by a non-digit (or the end) is the one DigitRun measures. */
  lemma {:induction false} DigitRunIsMaximal(x: string, p: nat, k: nat)
    requires DigitsIn(x, p, p + k)
    requires p + k == |x| || !IsDigit(x[p + k])
    ensures DigitRun(x, p) == k
    decreases k
  {
    if k > 0 {
      DigitRunIsMaximal(x, p + 1, k - 1);
    }
  }

  /** Past the first octet and its dot, DottedOctetsEnd goes on with one octet fewer. */
  lemma DottedOctetsEndStep(x: string, p: nat, n: nat, i: nat)
    requires 1 < n && p + i < |x| && 1 <= i <= 3 && DigitRun(x, p) == i && x[p + i] == '.'
    ensures DottedOctetsEnd(x, p, n) == DottedOctetsEnd(x, p + i + 1, n - 1)
  {
  }

  /** When the scanner finds `n > 1` dotted octets, it found an octet and a dot first. */
  lemma DottedOctetsEndFirst(x: string, p: nat, n: nat, q: nat)
    requires 1 < n && p <= |x| && DottedOctetsEnd(x, p, n) == Some(q)
    ensures var run := DigitRun(x, p);
      && 1 <= run <= 3 && p + run < |x| && x[p + run] == '.'
      && DottedOctetsEnd(x, p + run + 1, n - 1) == Some(q)
  {
  }

  /** An octet and a dot in front of `n - 1` dotted octets are `n` dotted octets. */
  lemma DottedOctetsInCons(x: string, p: nat, i: nat, q: nat, n: nat)
    requires 1 < n && p < i < q <= |x| && OctetIn(x, p, i) && x[i] == '.' && DottedOctetsIn(x, i + 1, q, n - 1)
    ensures DottedOctetsIn(x, p, q, n)
  {
  }

  lemma {:induction false} DottedOctetsEndSound(x: string, p: nat, n: nat, q: nat)
    requires p <= |x| && DottedOctetsEnd(x, p, n) == Some(q)
    ensures DottedOctetsIn(x, p, q, n)
    decreases n
  {
    var run := DigitRun(x, p);
    DigitRunIsDigits(x, p);
    if n > 1 {
      DottedOctetsEndFirst(x, p, n, q);
      DottedOctetsEndSound(x, p + run + 1, n - 1, q);
      DottedOctetsInCons(x, p, p + run, q, n);
    }
  }

  lemma {:induction false} DottedOctetsEndComplete(x: string, p: nat, q: nat, n: nat)
    requires DottedOctetsIn(x, p, q, n)
    requires q <= |x| && (q == |x| || !IsDigit(x[q]))
    ensures DottedOctetsEnd(x, p, n) == Some(q)
    decreases n
  {
    if n == 1 {
      DottedOctetsEndOne(x, p, q);
    } else {
      var i: nat :| p < i < q <= |x| && OctetIn(x, p, i) && x[i] == '.' && DottedOctetsIn(x, i + 1, q, n - 1);
      DottedOctetsEndComplete(x, i + 1, q, n - 1);
      DottedOctetsEndCons(x, p, i, q, n);
    }
  }

  /** One octet followed by a non-digit is one the scanner finds. */
  lemma DottedOctetsEndOne(x: string, p: nat, q: nat)
    requires OctetIn(x, p, q) && (q == |x| || !IsDigit(x[q]))
    ensures DottedOctetsEnd(x, p, 1) == Some(q)
  {
    DigitRunIsMaximal(x, p, q - p);
  }

  /** An octet and a dot in front of `n - 1` dotted octets the scanner finds make `n` it finds. */
  lemma DottedOctetsEndCons(x: string, p: nat, i: nat, q: nat, n: nat)
    requires 1 < n && p < i < q <= |x| && OctetIn(x, p, i) && x[i] == '.'
    requires DottedOctetsEnd(x, i + 1, n - 1) == Some(q)
    ensures DottedOctetsEnd(x, p, n) == Some(q)
  {
    DigitRunIsMaximal(x, p, i - p);
    DottedOctetsEndStep(x, p, n, i - p);
  }

  lemma HostEndSound(x: string, p: nat)
    requires p <= |x| && HostEnd(x, p).Some?
    ensures LocalHostIn(x, p, HostEnd(x, p).value)
  {
    var q := HostEnd(x, p).value;
    if AtIgnoringCase(x, p, "localhost") {
    } else if At(x, p, "127.0.0.1") {
    } else if At(x, p, "10.") {
      DottedOctetsEndSound(x, p + 3, 3, q);
    } else if At(x, p, "192.168.") {
      DottedOctetsEndSound(x, p + 8, 2, q);
    } else {
      DottedOctetsEndSound(x, p + 7, 2, q);
    }
  }

  /** A literal whose second character differs from `x[p + 1]` does not occur at `p`. */
  lemma NotAtSecond(x: string, p: nat, literal: string)
    requires p + 1 < |x| && 2 <= |literal| && x[p + 1] != literal[1]
    ensures !At(x, p, literal)
  {
    if p + |literal| <= |x| {
      assert x[p..p + |literal|][1] == x[p + 1];
    }
  }

  /** `x` at `p` starts with a digit, so the `localhost` alternative fails there. */
  lemma NotLocalhostAt(x: string, p: nat)
    requires p < |x| && IsDigit(x[p])
    ensures !AtIgnoringCase(x, p, "localhost")
  {
    if p + 9 <= |x| {
      assert x[p..p + 9][0] == x[p];
    }
  }

  /** A literal at `p`, read character by character. */
  lemma LiteralAt(x: string, p: nat, literal: string)
    requires At(x, p, literal)
    ensures forall k :: 0 <= k < |literal| ==> x[p + k] == literal[k]
  {
    forall k | 0 <= k < |literal|
      ensures x[p + k] == literal[k]
    {
      assert x[p..p + |literal|][k] == x[p + k];
    }
  }

  /** A host in 10/8 is found by the third alternative: the earlier ones fail at its first two characters. */
  lemma HostEndComplete10(x: string, p: nat, q: nat)
    requires p + 3 < q <= |x| && x[p..p + 3] == "10." && DottedOctetsIn(x, p + 3, q, 3)
    requires q == |x| || !IsDigit(x[q])
    ensures HostEnd(x, p) == Some(q)
  {
    assert At(x, p, "10.");
    LiteralAt(x, p, "10.");
    NotLocalhostAt(x, p);
    NotAtSecond(x, p, "127.0.0.1");
    DottedOctetsEndComplete(x, p + 3, q, 3);
  }

  lemma HostEndComplete192(x: string, p: nat, q: nat)
    requires p + 8 < q <= |x| && x[p..p + 8] == "192.168." && DottedOctetsIn(x, p + 8, q, 2)
    requires q == |x| || !IsDigit(x[q])
    ensures HostEnd(x, p) == Some(q)
  {
    assert At(x, p, "192.168.");
    LiteralAt(x, p, "192.168.");
    NotLocalhostAt(x, p);
    NotAtSecond(x, p, "127.0.0.1");
    NotAtSecond(x, p, "10.");
    DottedOctetsEndComplete(x, p + 8, q, 2);
  }

  lemma HostEndComplete172(x: string, p: nat, q: nat)
    requires p + 7 < q <= |x| && x[p..p + 4] == "172." && Private172Second(x[p + 4..p + 6]) && x[p + 6] == '.'
    requires DottedOctetsIn(x, p + 7, q, 2)
    requires q == |x| || !IsDigit(x[q])
    ensures HostEnd(x, p) == Some(q)
  {
    assert At(x, p, "172.");
    LiteralAt(x, p, "172.");
    NotLocalhostAt(x, p);
    NotAtSecond(x, p, "127.0.0.1");
    NotAtSecond(x, p, "10.");
    NotAtSecond(x, p, "192.168.");
    DottedOctetsEndComplete(x, p + 7, q, 2);
  }

  /** A local host followed by a non-digit (or the end) is where the scanner's host ends. */
  lemma HostEndComplete(x: string, p: nat, q: nat)
    requires LocalHostIn(x, p, q)
    requires q == |x| || !IsDigit(x[q])
    ensures HostEnd(x, p) == Some(q)
  {
    if SameIgnoringCase(x[p..q], "localhost") {
      assert AtIgnoringCase(x, p, "localhost");
    } else if x[p..q] == "127.0.0.1" {
      assert At(x, p, "127.0.0.1");
      assert x[p] == x[p..q][0];
      NotLocalhostAt(x, p);
    } else if p + 3 < q && x[p..p + 3] == "10." && DottedOctetsIn(x, p + 3, q, 3) {
      HostEndComplete10(x, p, q);
    } else if p + 8 < q && x[p..p + 8] == "192.168." && DottedOctetsIn(x, p + 8, q, 2) {
      HostEndComplete192(x, p, q);
    } else {
      HostEndComplete172(x, p, q);
    }
  }

  lemma PortThenBoundaryAtSound(x: string, q: nat)
    requires q <= |x| && PortThenBoundaryAt(x, q)
    ensures PortThenBoundaryFrom(x, q)
  {
    if !BoundaryAt(x, q) {
      var run := DigitRun(x, q + 1);
      DigitRunIsDigits(x, q + 1);
      assert q + 2 <= q + 1 + run <= |x| && x[q] == ':' && DigitsIn(x, q + 1, q + 1 + run) && BoundaryAt(x, q + 1 + run);
    }
  }

  lemma PortThenBoundaryAtComplete(x: string, q: nat)
    requires q <= |x| && PortThenBoundaryFrom(x, q)
    ensures PortThenBoundaryAt(x, q)
  {
    if !BoundaryAt(x, q) {
      var k: nat :| q + 2 <= k <= |x| && x[q] == ':' && DigitsIn(x, q + 1, k) && BoundaryAt(x, k);
      DigitRunIsMaximal(x, q + 1, k - q - 1);
    }
  }

  lemma SchemeEndIff(x: string, i: nat)
    requires i <= |x|
    ensures SchemeEnd(x) == Some(i) <==> SchemeIn(x, i)
  {
    if SchemeIn(x, i) && SameIgnoringCase(x[..i], "https://") {
      assert x[..8][4] == x[4];
      assert !AtIgnoringCase(x, 0, "http://") by { assert Fold(x[..7][4]) != Fold(':'); }
    }
  }

  /** Whatever the scanner accepts, the pattern describes. */
  lemma IsLocalUrlSound(x: string)
    requires IsLocalUrl(x)
    ensures MatchesLocalPattern(x)
  {
    var i := SchemeEnd(x).value;
    var j := HostEnd(x, i).value;
    SchemeEndIff(x, i);
    HostEndSound(x, i);
    PortThenBoundaryAtSound(x, j);
    assert i <= j <= |x| && SchemeIn(x, i) && LocalHostIn(x, i, j) && PortThenBoundaryFrom(x, j);
  }

  /** Whatever the pattern describes, the scanner accepts. */
  lemma IsLocalUrlComplete(x: string)
    requires MatchesLocalPattern(x)
    ensures IsLocalUrl(x)
  {
    var i: nat, j: nat :| i <= j <= |x| && SchemeIn(x, i) && LocalHostIn(x, i, j) && PortThenBoundaryFrom(x, j);
    SchemeEndIff(x, i);
    HostEndComplete(x, i, j);
    PortThenBoundaryAtComplete(x, j);
  }

  /** The scanner accepts exactly the URLs the pattern describes. */
  lemma IsLocalUrlMatchesPattern(x: string)
    ensures IsLocalUrl(x) <==> MatchesLocalPattern(x)
  {
    if IsLocalUrl(x) {
      IsLocalUrlSound(x);
    }
    if MatchesLocalPattern(x) {
      IsLocalUrlComplete(x);
    }
  }

  // ---------------------------------------------------------------------------
  // What the pattern does and does not accept
  // ---------------------------------------------------------------------------

  function DigitValue(c: char): int requires IsDigit(c) { c as int - '0' as int }

  /** The 172 alternative admits exactly the second octets 16 to 31 when written with two digits. */
  lemma Private172SecondRange(s: string)
    requires |s| == 2 && IsDigit(s[0]) && IsDigit(s[1])
    ensures Private172Second(s) <==> 16 <= 10 * DigitValue(s[0]) + DigitValue(s[1]) <= 31
  {
  }

  /** A host that starts `172.` is found only when its second octet is 16..31: `172.15.*` and `172.32.*` are not local. */
  lemma Only172PrivateBlock(x: string, p: nat)
    requires p <= |x| && At(x, p, "172.") && HostEnd(x, p).Some?
    ensures p + 7 <= |x| && Private172Second(x[p + 4..p + 6]) && x[p + 6] == '.'
  {
    LiteralAt(x, p, "172.");
    NotLocalhostAt(x, p);
    NotAtSecond(x, p, "127.0.0.1");
    NotAtSecond(x, p, "10.");
    NotAtSecond(x, p, "192.168.");
  }

  /**
   * Octets are not range-checked: `http://10.<d>.1.1` is local for every run `d` of one
   * to three digits, `http://10.999.1.1` included.
   */
  lemma OctetsNotRangeChecked(d: string)
    requires 1 <= |d| <= 3 && forall k :: 0 <= k < |d| ==> IsDigit(d[k])
    ensures IsLocalUrl("http://10." + d + ".1.1")
  {
    var x := "http://10." + d + ".1.1";
    var n := |d|;
    assert x[..10] == "http://10.";
    assert x[10 + n..] == ".1.1";
    assert DigitsIn(x, 10, 10 + n) by {
      assert forall k :: 10 <= k < 10 + n ==> x[k] == d[k - 10];
    }
    TenAddressIsLocal(x, n);
  }

  /** The shape behind `OctetsNotRangeChecked`: `http://10.`, an octet, then `.1.1`. */
  lemma TenAddressIsLocal(x: string, n: nat)
    requires 1 <= n <= 3 && |x| == 14 + n
    requires x[..10] == "http://10." && DigitsIn(x, 10, 10 + n) && x[10 + n..] == ".1.1"
    ensures IsLocalUrl(x)
  {
    assert x[..7] == x[..10][..7];
    assert SchemeIn(x, 7);
    assert x[10 + n] == x[10 + n..][0] && x[11 + n] == x[10 + n..][1];
    assert x[12 + n] == x[10 + n..][2] && x[13 + n] == x[10 + n..][3];
    assert DottedOctetsIn(x, 13 + n, 14 + n, 1);
    assert DottedOctetsIn(x, 11 + n, 14 + n, 2) by { assert OctetIn(x, 11 + n, 12 + n); }
    assert DottedOctetsIn(x, 10, 14 + n, 3) by { assert OctetIn(x, 10, 10 + n); }
    assert LocalHostIn(x, 7, 14 + n) by { assert x[7..10] == x[..10][7..]; }
    assert PortThenBoundaryFrom(x, 14 + n);
    IsLocalUrlComplete(x);
  }
}
