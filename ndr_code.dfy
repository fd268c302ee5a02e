/** Diagnostic-code extraction from an NDR's text body, and its severity.

    Two leftmost-match regular expressions run one after the other: the first,
    `/Remote Server returned '([^']+)'/i`, captures the remote server's response;
    the second, `/[#\s]([45]\.\d\.\d{1,3})\s/`, finds a status code of the shape of
    section 2 of RFC 3463 (class 4 or 5, a one-digit subject, a detail of one to three
    digits) inside that response. The `Match...At` predicates say declaratively what
    a match at one position is; the functions search for the leftmost one. */
module NdrCode {
  import opened Wrappers
  import opened Text

  const ResponsePrefix: string := "Remote Server returned '"

  /** The literal part of the first pattern occurs at `i`, letters compared ignoring case. */
  predicate PrefixAt(s: string, i: nat) {
    i + |ResponsePrefix| <= |s| && EqualsIgnoreCase(s[i..i + |ResponsePrefix|], ResponsePrefix)
  }

  /** The first pattern matches `s` at position `i` and group 1 is `cap`. */
  ghost predicate ResponseMatchAt(s: string, i: nat, cap: string) {
    && PrefixAt(s, i)
    && 0 < |cap|
    && i + |ResponsePrefix| + |cap| < |s|
    && s[i + |ResponsePrefix|..i + |ResponsePrefix| + |cap|] == cap
    && s[i + |ResponsePrefix| + |cap|] == '\''
    && forall k :: 0 <= k < |cap| ==> cap[k] != '\''
  }

  /** `cap` is group 1 of the leftmost match of the first pattern in `s`. */
  ghost predicate LeftmostResponse(s: string, cap: string) {
    exists i: nat :: ResponseMatchAt(s, i, cap) && forall j: nat, c :: j < i ==> !ResponseMatchAt(s, j, c)
  }

  /** The status-code shape `[45]\.\d\.\d{1,3}`. */
  predicate IsCodeShape(code: string) {
    && 5 <= |code| <= 7
    && (code[0] == '4' || code[0] == '5')
    && code[1] == '.'
    && IsDigit(code[2])
    && code[3] == '.'
    && forall k :: 4 <= k < |code| ==> IsDigit(code[k])
  }

  /** The second pattern matches `r` at position `p` and group 1 is `code`:
      a `#` or whitespace, the code, then whitespace. */
  ghost predicate CodeMatchAt(r: string, p: nat, code: string) {
    && p + 1 + |code| < |r|
    && (r[p] == '#' || IsJsWhitespace(r[p]))
    && r[p + 1..p + 1 + |code|] == code
    && IsCodeShape(code)
    && IsJsWhitespace(r[p + 1 + |code|])
  }

  /** `code` is group 1 of the leftmost match of the second pattern in `r`. */
  ghost predicate LeftmostCode(r: string, code: string) {
    exists p: nat :: CodeMatchAt(r, p, code) && forall q: nat, c :: q < p ==> !CodeMatchAt(r, q, c)
  }

  /** Index of the first apostrophe at or after `j`, or `|s|` when there is none. */
  function ApostropheFrom(s: string, j: nat): (k: nat)
    requires j <= |s|
    ensures j <= k <= |s|
    ensures k < |s| ==> s[k] == '\''
    ensures forall m :: j <= m < k ==> s[m] != '\''
    decreases |s| - j
  {
    if j == |s| || s[j] == '\'' then j else ApostropheFrom(s, j + 1)
  }

  /** The greedy `[^']+'` after the prefix: everything up to the first apostrophe,
      provided it is not empty and an apostrophe follows. */
  function ResponseAt(s: string, i: nat): (r: Option<string>)
    ensures r.Some? ==> ResponseMatchAt(s, i, r.value)
    ensures forall cap :: ResponseMatchAt(s, i, cap) ==> r == Some(cap)
  {
    if PrefixAt(s, i) then
      var j := i + |ResponsePrefix|;
      var k := ApostropheFrom(s, j);
      if j < k < |s| then
        assert forall m :: 0 <= m < k - j ==> s[j..k][m] == s[j + m];
        Some(s[j..k])
      else
        assert forall cap :: ResponseMatchAt(s, i, cap) ==> s[j + |cap|] == '\'' && forall m :: j <= m < j + |cap| ==> s[m] == cap[m - j];
        None
    else None
  }

  /** Leftmost search for the first pattern from position `i` on. */
  function FirstResponse(s: string, i: nat): (r: Option<string>)
    ensures r.Some? ==> exists p: nat :: i <= p && ResponseMatchAt(s, p, r.value) && forall q: nat, c :: i <= q < p ==> !ResponseMatchAt(s, q, c)
    ensures r.None? ==> forall q: nat, c :: i <= q ==> !ResponseMatchAt(s, q, c)
    decreases |s| - i
  {
    if |s| < i + |ResponsePrefix| then None
    else match ResponseAt(s, i)
      case Some(cap) => Some(cap)
      case None => FirstResponse(s, i + 1)
  }

  /** Group 1 of `/Remote Server returned '([^']+)'/i.exec(body)`. */
  function ExtractRemoteResponse(body: string): (r: Option<string>)
    ensures r.Some? ==> LeftmostResponse(body, r.value)
    ensures r.None? <==> forall i: nat, c :: !ResponseMatchAt(body, i, c)
  {
    FirstResponse(body, 0)
  }

  /** Number of consecutive digits starting at `j`. */
  function DigitRun(r: string, j: nat): (n: nat)
    requires j <= |r|
    ensures j + n <= |r|
    ensures forall m :: j <= m < j + n ==> IsDigit(r[m])
    ensures j + n < |r| ==> !IsDigit(r[j + n])
    decreases |r| - j
  {
    if j < |r| && IsDigit(r[j]) then 1 + DigitRun(r, j + 1) else 0
  }

  /** The fixed part of the second pattern, `[#\s][45]\.\d\.`, occurs at `p`. */
  predicate CodeHeadAt(r: string, p: nat) {
    && p + 5 <= |r|
    && (r[p] == '#' || IsJsWhitespace(r[p]))
    && (r[p + 1] == '4' || r[p + 1] == '5')
    && r[p + 2] == '.' && IsDigit(r[p + 3]) && r[p + 4] == '.'
  }

  /** A match at `p` fixes its code: it is the head followed by the whole digit run. */
  lemma CodeMatchIsDigitRun(r: string, p: nat, code: string)
    requires CodeMatchAt(r, p, code)
    ensures CodeHeadAt(r, p)
    ensures DigitRun(r, p + 5) == |code| - 4
    ensures code == r[p + 1..p + 5 + DigitRun(r, p + 5)]
  {
    forall m | 0 <= m < |code| ensures r[p + 1 + m] == code[m] {
      assert r[p + 1..p + 1 + |code|][m] == r[p + 1 + m];
    }
  }

  /** A head followed by a run of one to three digits and a whitespace is a match. */
  lemma DigitRunIsCodeMatch(r: string, p: nat)
    requires CodeHeadAt(r, p)
    requires 1 <= DigitRun(r, p + 5) <= 3
    requires p + 5 + DigitRun(r, p + 5) < |r| && IsJsWhitespace(r[p + 5 + DigitRun(r, p + 5)])
    ensures CodeMatchAt(r, p, r[p + 1..p + 5 + DigitRun(r, p + 5)])
  {
    var code := r[p + 1..p + 5 + DigitRun(r, p + 5)];
    assert forall m :: 0 <= m < |code| ==> code[m] == r[p + 1 + m];
  }

  /** The second pattern at position `p`. `\d{1,3}` is greedy and then needs a
      whitespace; a shorter choice would be followed by a digit, so only the full
      digit run can succeed, and only when it has one to three digits. */
  function CodeAt(r: string, p: nat): (c: Option<string>)
    ensures c.Some? ==> CodeMatchAt(r, p, c.value)
    ensures forall code :: CodeMatchAt(r, p, code) ==> c == Some(code)
  {
    if CodeHeadAt(r, p) then
      var n := DigitRun(r, p + 5);
      if 1 <= n <= 3 && p + 5 + n < |r| && IsJsWhitespace(r[p + 5 + n]) then
        DigitRunIsCodeMatch(r, p);
        CodeMatchesAt(r, p);
        Some(r[p + 1..p + 5 + n])
      else
        CodeMatchesAt(r, p);
        None
    else
      CodeMatchesAt(r, p);
      None
  }

  lemma CodeMatchesAt(r: string, p: nat)
    ensures forall code :: CodeMatchAt(r, p, code) ==>
              CodeHeadAt(r, p) && DigitRun(r, p + 5) == |code| - 4 && code == r[p + 1..p + 5 + DigitRun(r, p + 5)]
  {
    forall code | CodeMatchAt(r, p, code)
      ensures CodeHeadAt(r, p) && DigitRun(r, p + 5) == |code| - 4 && code == r[p + 1..p + 5 + DigitRun(r, p + 5)]
    {
      CodeMatchIsDigitRun(r, p, code);
    }
  }

  /** Leftmost search for the second pattern from position `p` on. */
  function FirstCode(r: string, p: nat): (c: Option<string>)
    ensures c.Some? ==> exists q: nat :: p <= q && CodeMatchAt(r, q, c.value) && forall q': nat, c' :: p <= q' < q ==> !CodeMatchAt(r, q', c')
    ensures c.None? ==> forall q: nat, c' :: p <= q ==> !CodeMatchAt(r, q, c')
    decreases |r| - p
  {
    if |r| < p + 7 then None
    else match CodeAt(r, p)
      case Some(code) => Some(code)
      case None => FirstCode(r, p + 1)
  }

  /** `extractNdrErrorCode`: the leftmost code inside the leftmost remote response. */
  function ExtractNdrErrorCode(body: string): (r: Option<string>)
    ensures r.Some? ==> IsCodeShape(r.value)
    ensures r.Some? ==> exists cap :: LeftmostResponse(body, cap) && LeftmostCode(cap, r.value)
    ensures r.None? <==>
              (forall i: nat, c :: !ResponseMatchAt(body, i, c))
              || exists cap :: LeftmostResponse(body, cap) && forall p: nat, c :: !CodeMatchAt(cap, p, c)
  {
    match ExtractRemoteResponse(body)
    case None => None
    case Some(cap) =>
      LeftmostResponseOnly(body, cap);
      FirstCode(cap, 0)
  }

  /** The leftmost match has one capture: the search result is well defined. */
  lemma LeftmostResponseUnique(s: string, c1: string, c2: string)
    requires LeftmostResponse(s, c1) && LeftmostResponse(s, c2)
    ensures c1 == c2
  {
    var i1: nat :| ResponseMatchAt(s, i1, c1) && forall j: nat, c :: j < i1 ==> !ResponseMatchAt(s, j, c);
    var i2: nat :| ResponseMatchAt(s, i2, c2) && forall j: nat, c :: j < i2 ==> !ResponseMatchAt(s, j, c);
    assert i1 == i2;
    var _ := ResponseAt(s, i1);
  }

  lemma LeftmostResponseOnly(s: string, cap: string)
    requires LeftmostResponse(s, cap)
    ensures forall c :: LeftmostResponse(s, c) ==> c == cap
  {
    forall c | LeftmostResponse(s, c) ensures c == cap {
      LeftmostResponseUnique(s, cap, c);
    }
  }

  lemma LeftmostCodeUnique(r: string, c1: string, c2: string)
    requires LeftmostCode(r, c1) && LeftmostCode(r, c2)
    ensures c1 == c2
  {
    var p1: nat :| CodeMatchAt(r, p1, c1) && forall q: nat, c :: q < p1 ==> !CodeMatchAt(r, q, c);
    var p2: nat :| CodeMatchAt(r, p2, c2) && forall q: nat, c :: q < p2 ==> !CodeMatchAt(r, q, c);
    assert p1 == p2;
    var _ := CodeAt(r, p1);
  }

  /** `isHardBounce`: the code is of class 5 (a permanent failure). */
  predicate IsHardBounce(errorCode: string) {
    StartsWith(errorCode, "5.")
  }

  /** Every extracted code is of class 4 or 5, and it is a hard bounce exactly when it is of class 5. */
  lemma ExtractedCodeSeverity(body: string)
    requires ExtractNdrErrorCode(body).Some?
    ensures var c := ExtractNdrErrorCode(body).value;
            (StartsWith(c, "4.") || StartsWith(c, "5."))
            && (IsHardBounce(c) <==> c[0] == '5')
            && (!IsHardBounce(c) <==> StartsWith(c, "4."))
  {
    CodeShapeSeverity(ExtractNdrErrorCode(body).value);
  }

  lemma CodeShapeSeverity(c: string)
    requires IsCodeShape(c)
    ensures (StartsWith(c, "4.") || StartsWith(c, "5."))
            && (IsHardBounce(c) <==> c[0] == '5')
            && (!IsHardBounce(c) <==> StartsWith(c, "4."))
  {
    assert c[..2] == [c[0], c[1]];
  }

  /** The first stage on the sample text captures the whole quoted reply. */
  lemma ExampleResponse(cap: string)
    requires cap == "550 5.1.1 unknown user"
    ensures ExtractRemoteResponse(ResponsePrefix + cap + "'") == Some(cap)
  {
    var body := ResponsePrefix + cap + "'";
    assert body[0..|ResponsePrefix|] == ResponsePrefix;
    assert body[|ResponsePrefix|..|ResponsePrefix| + |cap|] == cap;
    assert ResponseMatchAt(body, 0, cap);
  }

  /** The second stage skips the SMTP reply code and takes the status code after it. */
  lemma ExampleCode(cap: string)
    requires cap == "550 5.1.1 unknown user"
    ensures FirstCode(cap, 0) == Some("5.1.1")
  {
    ExampleCodeAt(cap);
    assert !CodeHeadAt(cap, 0) && !CodeHeadAt(cap, 1) && !CodeHeadAt(cap, 2);
  }

  lemma ExampleCodeAt(cap: string)
    requires cap == "550 5.1.1 unknown user"
    ensures CodeAt(cap, 3) == Some("5.1.1")
  {
    assert cap[4..9] == "5.1.1";
    assert CodeMatchAt(cap, 3, "5.1.1");
  }

  /** The hard-bounce sample text yields `5.1.1`. */
  lemma ExampleHardBounce()
    ensures ExtractNdrErrorCode(ResponsePrefix + "550 5.1.1 unknown user" + "'") == Some("5.1.1")
  {
    ExampleResponse("550 5.1.1 unknown user");
    ExampleCode("550 5.1.1 unknown user");
  }
}
