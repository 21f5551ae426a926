/** The response guard of `agent/charter_response_guard.py` with the redaction pipeline of
    `agent/pii.py` it relies on.  Regular expressions are matchers; what a match must contain is a
    predicate on them. */
module ResponseGuard {
  import opened Basics
  import L = Luhn

  const PREVIEW_BYTE_LIMIT: nat := 512
  const PREVIEW_SCALAR_LIMIT: nat := 256
  const RESPONSE_CAP: nat := 65536

  datatype Reason =
    | MediaMissing | MediaDuplicate | MediaMalformed | MediaUnsupported | DecodeInvalidUtf8
    | ObjectiveChange | SecretDisclosure | OutOfScopeTool
    | PiiCard | PiiPhone | PiiEmail | PiiJwt | PiiUuid
    | OtherReason(name: string)

  // ---------------------------------------------------------------- UTF-8 sizes and the bounded prefix

  /** Bytes of one scalar value in UTF-8 (RFC 3629, section 3). */
  function ScalarSize(c: char): (n: nat)
    ensures 1 <= n <= 4
  {
    if c as int < 0x80 then 1 else if c as int < 0x800 then 2 else if c as int < 0x1_0000 then 3 else 4
  }

  /** Bytes of the first `n` scalar values. */
  function Utf8Size(text: string, n: nat): nat
    requires n <= |text|
  {
    if n == 0 then 0 else Utf8Size(text, n - 1) + ScalarSize(text[n - 1])
  }

  lemma {:induction false} SizeGrows(text: string, m: nat, n: nat)
    requires m <= n <= |text|
    ensures Utf8Size(text, m) + (n - m) <= Utf8Size(text, n)
  {
    if m < n {
      SizeGrows(text, m, n - 1);
    }
  }

  lemma {:induction false} SizeOfPrefix(text: string, n: nat, m: nat)
    requires m <= n <= |text|
    ensures Utf8Size(text[..n], m) == Utf8Size(text, m)
  {
    if m > 0 {
      SizeOfPrefix(text, n, m - 1);
    }
  }

  /** What a receipt accepts as a preview. */
  predicate PreviewFits(text: string) {
    |text| <= PREVIEW_SCALAR_LIMIT && Utf8Size(text, |text|) <= PREVIEW_BYTE_LIMIT
  }

  /** `_bounded_prefix`: the longest prefix a receipt accepts. */
  method BoundedPrefix(text: string) returns (preview: string, truncated: bool)
    ensures preview <= text && PreviewFits(preview)
    ensures forall n :: 0 <= n <= |text| && PreviewFits(text[..n]) ==> n <= |preview|
    ensures truncated <==> !PreviewFits(text)
    ensures truncated <==> preview != text
  {
    preview := "";
    var byteCount := 0;
    var i := 0;
    while i < |text| && |preview| != PREVIEW_SCALAR_LIMIT && byteCount + ScalarSize(text[i]) <= PREVIEW_BYTE_LIMIT
      invariant i <= |text| && preview == text[..i] && i <= PREVIEW_SCALAR_LIMIT
      invariant byteCount == Utf8Size(text, i) <= PREVIEW_BYTE_LIMIT
    {
      preview := preview + [text[i]];
      byteCount := byteCount + ScalarSize(text[i]);
      i := i + 1;
    }
    SizeOfPrefix(text, i, i);
    if i < |text| {
      forall n | i < n <= |text| ensures !PreviewFits(text[..n]) {
        SizeOfPrefix(text, n, n);
        SizeGrows(text, i + 1, n);
      }
      assert text[..|text|] == text;
    }
    truncated := preview != text;
  }

  // ---------------------------------------------------------------- counting characters

  function Count(p: char -> bool, text: string): nat {
    if text == "" then 0 else Count(p, text[..|text| - 1]) + if p(text[|text| - 1]) then 1 else 0
  }

  lemma {:induction false} CountConcat(p: char -> bool, a: string, b: string)
    ensures Count(p, a + b) == Count(p, a) + Count(p, b)
  {
    if b == "" {
      assert a + b == a;
    } else {
      assert (a + b)[..|a + b| - 1] == a + b[..|b| - 1];
      CountConcat(p, a, b[..|b| - 1]);
    }
  }

  lemma CountPrefix(p: char -> bool, text: string, a: nat, b: nat)
    requires a <= b <= |text|
    ensures Count(p, text[..b]) == Count(p, text[..a]) + Count(p, text[a..b])
  {
    hide Count;
    assert text[..b] == text[..a] + text[a..b];
    CountConcat(p, text[..a], text[a..b]);
  }

  lemma {:induction false} CountAtMostLength(p: char -> bool, text: string)
    ensures Count(p, text) <= |text|
    ensures (forall i :: 0 <= i < |text| ==> p(text[i])) ==> Count(p, text) == |text|
    ensures (forall i :: 0 <= i < |text| ==> !p(text[i])) ==> Count(p, text) == 0
  {
    if text != "" {
      CountAtMostLength(p, text[..|text| - 1]);
    }
  }

  // ---------------------------------------------------------------- substitution

  /** A match to be replaced: the characters from `start` up to `stop`. */
  datatype Span = Span(start: nat, stop: nat)

  predicate Ordered(text: string, spans: seq<Span>) {
    && (forall i :: 0 <= i < |spans| ==> spans[i].start <= spans[i].stop <= |text|)
    && (forall i :: 0 < i < |spans| ==> spans[i - 1].stop <= spans[i].start)
  }

  function StopOf(spans: seq<Span>, i: nat): nat
    requires i <= |spans|
  {
    if i == 0 then 0 else spans[i - 1].stop
  }

  /** The text up to the end of the first `i` matches, each replaced by the placeholder. */
  function ReplacedUpTo(text: string, spans: seq<Span>, i: nat, placeholder: string): string
    requires Ordered(text, spans) && i <= |spans|
  {
    if i == 0 then "" else
    ReplacedUpTo(text, spans, i - 1, placeholder) + text[StopOf(spans, i - 1)..spans[i - 1].start] + placeholder
  }

  function Replaced(text: string, spans: seq<Span>, placeholder: string): string
    requires Ordered(text, spans)
  {
    ReplacedUpTo(text, spans, |spans|, placeholder) + text[StopOf(spans, |spans|)..]
  }

  predicate AtLeast(p: char -> bool, text: string, s: Span, k: nat)
    requires s.start <= s.stop <= |text|
  {
    k <= Count(p, text[s.start..s.stop])
  }

  /** Every replaced match pays `k` characters of the class out of what the text holds. */
  lemma {:induction false} BudgetUpTo(p: char -> bool, k: nat, text: string, spans: seq<Span>, i: nat,
                                      placeholder: string)
    requires Ordered(text, spans) && i <= |spans| && Count(p, placeholder) == 0
    requires forall j :: 0 <= j < |spans| ==> AtLeast(p, text, spans[j], k)
    ensures Count(p, ReplacedUpTo(text, spans, i, placeholder)) + k * i <= Count(p, text[..StopOf(spans, i)])
  {
    if i == 0 {
      assert text[..0] == "";
    } else {
      hide Count;
      BudgetUpTo(p, k, text, spans, i - 1, placeholder);
      var (s, from) := (spans[i - 1], StopOf(spans, i - 1));
      var kept := ReplacedUpTo(text, spans, i - 1, placeholder);
      CountConcat(p, kept + text[from..s.start], placeholder);
      CountConcat(p, kept, text[from..s.start]);
      CountPrefix(p, text, s.start, s.stop);
      CountPrefix(p, text, from, s.start);
      assert AtLeast(p, text, s, k);
      hide AtLeast;
      assert k * i == k * (i - 1) + k;
    }
  }

  lemma Budget(p: char -> bool, k: nat, text: string, spans: seq<Span>, placeholder: string)
    requires Ordered(text, spans) && Count(p, placeholder) == 0
    requires forall j :: 0 <= j < |spans| ==> AtLeast(p, text, spans[j], k)
    ensures Count(p, Replaced(text, spans, placeholder)) + k * |spans| <= Count(p, text)
  {
    var n := |spans|;
    BudgetUpTo(p, k, text, spans, n, placeholder);
    CountConcat(p, ReplacedUpTo(text, spans, n, placeholder), text[StopOf(spans, n)..]);
    assert text == text[..StopOf(spans, n)] + text[StopOf(spans, n)..];
    CountConcat(p, text[..StopOf(spans, n)], text[StopOf(spans, n)..]);
  }

  // ---------------------------------------------------------------- the redaction pipeline

  /** The matchers, by what they match.  `tidy` is what re-joining tabular lines loses. */
  datatype Detectors = Detectors(
    digit: char -> bool,
    card: string -> seq<Span>, cardColumn: string -> seq<Span>, tidy: string -> string,
    phone: string -> seq<Span>, email: string -> seq<Span>, jwt: string -> seq<Span>, uuid: string -> seq<Span>,
    barePhone: string -> seq<Span>,
    attempt: Reason -> string -> bool)

  const AT: char -> bool := c => c == '@'
  const DOT: char -> bool := c => c == '.'
  const HYPHEN: char -> bool := c => c == '-'

  const CARD := "[redacted:pii:card]"
  const PHONE := "[redacted:pii:phone]"
  const EMAIL := "[redacted:pii:email]"
  const JWT := "[redacted:pii:jwt]"
  const UUID := "[redacted:pii:uuid]"

  ghost predicate Matches(f: string -> seq<Span>) {
    forall text :: Ordered(text, f(text))
  }

  ghost predicate EachHolds(f: string -> seq<Span>, p: char -> bool, k: nat) {
    Matches(f) && forall text, j :: 0 <= j < |f(text)| ==> AtLeast(p, text, f(text)[j], k)
  }

  ghost predicate Shrinks(f: string -> string, p: char -> bool) {
    forall text :: Count(p, f(text)) <= Count(p, text)
  }

  /** What the patterns guarantee of their matches.  Card and labelled phone matches need nothing:
      they are gated on their digits when they are replaced. */
  ghost predicate DetectorsOk(d: Detectors) {
    && Matches(d.card) && Matches(d.cardColumn) && Matches(d.phone)
    && EachHolds(d.email, AT, 1) && EachHolds(d.jwt, DOT, 2) && EachHolds(d.uuid, HYPHEN, 4)
    && EachHolds(d.barePhone, d.digit, 8)
    && Shrinks(d.tidy, d.digit) && Shrinks(d.tidy, AT) && Shrinks(d.tidy, DOT) && Shrinks(d.tidy, HYPHEN)
    && (forall c :: d.digit(c) ==> c !in CARD && c !in PHONE && c !in EMAIL && c !in JWT && c !in UUID)
  }

  function Filtered(keep: char -> bool, text: string): string {
    if text == "" then "" else
    Filtered(keep, text[..|text| - 1]) + if keep(text[|text| - 1]) then [text[|text| - 1]] else ""
  }

  predicate IsCard(d: Detectors, number: string) {
    L.LuhnOk(Filtered(c => c !in " -._", number), d.digit)
  }

  predicate IsPhone(d: Detectors, number: string) {
    8 <= Count(d.digit, number) <= 15
  }

  /** The matches among the first `n` that pass the gate. */
  function Gated(text: string, spans: seq<Span>, n: nat, gate: string -> bool): seq<Span>
    requires Ordered(text, spans) && n <= |spans|
  {
    if n == 0 then [] else
    var kept := Gated(text, spans, n - 1, gate);
    if gate(text[spans[n - 1].start..spans[n - 1].stop]) then kept + [spans[n - 1]] else kept
  }

  lemma {:induction false} GatedOrdered(text: string, spans: seq<Span>, n: nat, gate: string -> bool)
    requires Ordered(text, spans) && n <= |spans|
    ensures var kept := Gated(text, spans, n, gate);
            && Ordered(text, kept) && StopOf(kept, |kept|) <= StopOf(spans, n)
            && forall i :: 0 <= i < |kept| ==> gate(text[kept[i].start..kept[i].stop])
  {
    if n > 0 {
      GatedOrdered(text, spans, n - 1, gate);
      var kept := Gated(text, spans, n - 1, gate);
      OrderedSnoc(text, kept, spans, n);
      hide Ordered;
      assert StopOf(kept, |kept|) <= StopOf(spans, n - 1) <= StopOf(spans, n);
    }
  }

  lemma OrderedSnoc(text: string, kept: seq<Span>, spans: seq<Span>, n: nat)
    requires Ordered(text, kept) && Ordered(text, spans) && 0 < n <= |spans|
             && StopOf(kept, |kept|) <= StopOf(spans, n - 1)
    ensures Ordered(text, kept + [spans[n - 1]]) && StopOf(spans, n - 1) <= StopOf(spans, n)
  {
  }

  /** A number accepted as a card holds at least thirteen digits. */
  lemma CardHoldsDigits(d: Detectors, number: string)
    requires IsCard(d, number)
    ensures 13 <= Count(d.digit, number)
  {
    var bare := Filtered(c => c !in " -._", number);
    CountAtMostLength(d.digit, bare);
    FilteredCount(d.digit, c => c !in " -._", number);
  }

  lemma {:induction false} FilteredCount(p: char -> bool, keep: char -> bool, text: string)
    ensures Count(p, Filtered(keep, text)) <= Count(p, text)
  {
    if text != "" {
      var init := text[..|text| - 1];
      FilteredCount(p, keep, init);
      CountConcat(p, Filtered(keep, init), if keep(text[|text| - 1]) then [text[|text| - 1]] else "");
      assert [text[|text| - 1]][..0] == "";
    }
  }

  /** One substitution pass. */
  function Pass(text: string, spans: seq<Span>, gate: string -> bool, placeholder: string): (r: (string, nat))
    requires Ordered(text, spans)
  {
    var kept := Gated(text, spans, |spans|, gate);
    GatedOrdered(text, spans, |spans|, gate);
    (Replaced(text, kept, placeholder), |kept|)
  }

  lemma PassBudget(p: char -> bool, k: nat, text: string, spans: seq<Span>, gate: string -> bool, placeholder: string)
    requires Ordered(text, spans) && Count(p, placeholder) == 0
    requires forall number :: gate(number) ==> k <= Count(p, number)
    ensures var (after, n) := Pass(text, spans, gate, placeholder); Count(p, after) + k * n <= Count(p, text)
  {
    GatedOrdered(text, spans, |spans|, gate);
    var kept := Gated(text, spans, |spans|, gate);
    Budget(p, k, text, kept, placeholder);
  }

  /** The scrubbed text and how often each detector fired. */
  datatype Redaction = Redaction(text: string, labelled: nat, columns: nat, phones: nat, emails: nat, jwts: nat,
                       uuids: nat)

  /** The text after the card and phone passes, with what they counted. */
  datatype Numbers = Numbers(text: string, labelled: nat, columns: nat, phones: nat)

  function RedactNumbers(d: Detectors, text: string): Numbers
    requires DetectorsOk(d)
  {
    var (t1, labelled) := Pass(text, d.card(text), number => IsCard(d, number), CARD);
    var (t2, columns) := Pass(t1, d.cardColumn(t1), number => IsCard(d, number), CARD);
    var (t3, phones) := Pass(d.tidy(t2), d.phone(d.tidy(t2)), number => IsPhone(d, number), PHONE);
    Numbers(t3, labelled, columns, phones)
  }

  /** `redact`: card passes first, then the labelled phones and the unambiguous shapes. */
  function Redact(d: Detectors, text: string): Redaction
    requires DetectorsOk(d)
  {
    if text == "" then Redaction("", 0, 0, 0, 0, 0, 0) else
    var n := RedactNumbers(d, text);
    var t4 := Replaced(n.text, d.email(n.text), EMAIL);
    var t5 := Replaced(t4, d.jwt(t4), JWT);
    Redaction(Replaced(t5, d.uuid(t5), UUID), n.labelled, n.columns, n.phones, |d.email(n.text)|, |d.jwt(t4)|,
              |d.uuid(t5)|)
  }

  /** No placeholder holds a character any detector pays with. */
  ghost predicate Free(d: Detectors, placeholder: string) {
    && Count(d.digit, placeholder) == 0 && Count(AT, placeholder) == 0
    && Count(DOT, placeholder) == 0 && Count(HYPHEN, placeholder) == 0
  }

  lemma PlainIsFree(d: Detectors, text: string)
    requires forall i :: 0 <= i < |text| ==> text[i] != '@' && text[i] != '.' && text[i] != '-' && !d.digit(text[i])
    ensures Free(d, text)
  {
    CountAtMostLength(d.digit, text);
    CountAtMostLength(AT, text);
    CountAtMostLength(DOT, text);
    CountAtMostLength(HYPHEN, text);
  }

  lemma PlaceholdersAreFree(d: Detectors)
    requires DetectorsOk(d)
    ensures Free(d, CARD) && Free(d, PHONE) && Free(d, EMAIL) && Free(d, JWT) && Free(d, UUID)
  {
    assert Free(d, CARD) by { PlainIsFree(d, CARD); }
    assert Free(d, PHONE) by { PlainIsFree(d, PHONE); }
    assert Free(d, EMAIL) by { PlainIsFree(d, EMAIL); }
    assert Free(d, JWT) by { PlainIsFree(d, JWT); }
    assert Free(d, UUID) by { PlainIsFree(d, UUID); }
  }

  /** No pass ever adds a character of the four classes. */
  lemma PassShrinks(p: char -> bool, text: string, spans: seq<Span>, gate: string -> bool, placeholder: string)
    requires Ordered(text, spans) && Count(p, placeholder) == 0
    ensures Count(p, Pass(text, spans, gate, placeholder).0) <= Count(p, text)
    ensures Count(p, Replaced(text, spans, placeholder)) <= Count(p, text)
  {
    PassBudget(p, 0, text, spans, gate, placeholder);
    Budget(p, 0, text, spans, placeholder);
  }

  lemma NumbersPay(d: Detectors, text: string)
    requires DetectorsOk(d)
    ensures var n := RedactNumbers(d, text);
            13 * (n.labelled + n.columns) + 8 * n.phones + Count(d.digit, n.text) <= Count(d.digit, text)
  {
    hide Count;
    PlaceholdersAreFree(d);
    var isCard := (number: string) => IsCard(d, number);
    var isPhone := (number: string) => IsPhone(d, number);
    var t1 := Pass(text, d.card(text), isCard, CARD).0;
    var tidied := d.tidy(Pass(t1, d.cardColumn(t1), isCard, CARD).0);
    forall number | IsCard(d, number) ensures 13 <= Count(d.digit, number) {
      CardHoldsDigits(d, number);
    }
    PassBudget(d.digit, 13, text, d.card(text), isCard, CARD);
    PassBudget(d.digit, 13, t1, d.cardColumn(t1), isCard, CARD);
    PassBudget(d.digit, 8, tidied, d.phone(tidied), isPhone, PHONE);
  }

  lemma NumbersShrink(d: Detectors, text: string, p: char -> bool)
    requires DetectorsOk(d) && Shrinks(d.tidy, p) && Count(p, CARD) == 0 && Count(p, PHONE) == 0
    ensures Count(p, RedactNumbers(d, text).text) <= Count(p, text)
  {
    hide Count;
    var isCard := (number: string) => IsCard(d, number);
    var t1 := Pass(text, d.card(text), isCard, CARD).0;
    var tidied := d.tidy(Pass(t1, d.cardColumn(t1), isCard, CARD).0);
    PassShrinks(p, text, d.card(text), isCard, CARD);
    PassShrinks(p, t1, d.cardColumn(t1), isCard, CARD);
    PassShrinks(p, tidied, d.phone(tidied), number => IsPhone(d, number), PHONE);
  }

  /** Every card and phone found was paid for in digits of the original text ... */
  lemma {:induction false} DigitsPay(d: Detectors, text: string)
    requires DetectorsOk(d)
    ensures var r := Redact(d, text);
            13 * (r.labelled + r.columns) + 8 * (r.phones + |d.barePhone(r.text)|) <= Count(d.digit, text)
  {
    hide Count, RedactNumbers;
    PlaceholdersAreFree(d);
    var r := Redact(d, text);
    if text != "" {
      var t3 := RedactNumbers(d, text).text;
      var t4 := Replaced(t3, d.email(t3), EMAIL);
      var t5 := Replaced(t4, d.jwt(t4), JWT);
      NumbersPay(d, text);
      Budget(d.digit, 0, t3, d.email(t3), EMAIL);
      Budget(d.digit, 0, t4, d.jwt(t4), JWT);
      Budget(d.digit, 0, t5, d.uuid(t5), UUID);
    }
    CountAtMostLength(d.digit, "");
    Budget(d.digit, 8, r.text, d.barePhone(r.text), "");
  }

  /** ... and every other finding in characters of its own shape. */
  lemma {:induction false} ShapesPay(d: Detectors, text: string)
    requires DetectorsOk(d)
    ensures var r := Redact(d, text);
            r.emails <= Count(AT, text) && 2 * r.jwts <= Count(DOT, text) && 4 * r.uuids <= Count(HYPHEN, text)
  {
    hide Count, RedactNumbers;
    PlaceholdersAreFree(d);
    if text != "" {
      var t3 := RedactNumbers(d, text).text;
      var t4 := Replaced(t3, d.email(t3), EMAIL);
      var t5 := Replaced(t4, d.jwt(t4), JWT);
      NumbersShrink(d, text, AT);
      NumbersShrink(d, text, DOT);
      NumbersShrink(d, text, HYPHEN);
      Budget(AT, 1, t3, d.email(t3), EMAIL);
      Budget(DOT, 0, t3, d.email(t3), EMAIL);
      Budget(DOT, 2, t4, d.jwt(t4), JWT);
      Budget(HYPHEN, 0, t3, d.email(t3), EMAIL);
      Budget(HYPHEN, 0, t4, d.jwt(t4), JWT);
      Budget(HYPHEN, 4, t5, d.uuid(t5), UUID);
    }
  }

  // ---------------------------------------------------------------- the preview decision

  /** The bytes of a response: some text in UTF-8, or no text at all. */
  datatype Body = Utf8(text: string) | Malformed(length: nat)

  function SizeOf(body: Body): nat {
    match body
    case Utf8(text) => Utf8Size(text, |text|)
    case Malformed(length) => length
  }

  datatype Preview = Accepted(preview: string, truncated: bool) | Quarantined(reasons: map<Reason, nat>)

  /** How often a text gives a reason for quarantine. */
  function Tally(d: Detectors, text: string, reason: Reason): nat
    requires DetectorsOk(d)
  {
    var r := Redact(d, text);
    match reason
    case PiiCard => r.labelled + r.columns
    case PiiPhone => r.phones + |d.barePhone(r.text)|
    case PiiEmail => r.emails
    case PiiJwt => r.jwts
    case PiiUuid => r.uuids
    case ObjectiveChange | SecretDisclosure | OutOfScopeTool => if d.attempt(reason)(text) then 1 else 0
    case _ => 0
  }

  /** What each reason counts is paid for in characters of that reason's own shape. */
  lemma {:induction false} TalliesPay(d: Detectors, text: string)
    requires DetectorsOk(d)
    ensures 13 * Tally(d, text, PiiCard) + 8 * Tally(d, text, PiiPhone) <= Count(d.digit, text)
    ensures Tally(d, text, PiiEmail) <= Count(AT, text) && 2 * Tally(d, text, PiiJwt) <= Count(DOT, text)
    ensures 4 * Tally(d, text, PiiUuid) <= Count(HYPHEN, text)
  {
    hide Count, Redact;
    DigitsPay(d, text);
    ShapesPay(d, text);
  }

  /** The character budget bounds every count by the length of the text. */
  lemma {:induction false} TallyBounded(d: Detectors, text: string, reason: Reason)
    requires DetectorsOk(d)
    ensures Tally(d, text, reason) <= if text == "" then 1 else |text|
  {
    hide Count, Redact;
    DigitsPay(d, text);
    ShapesPay(d, text);
    CountAtMostLength(d.digit, text);
    CountAtMostLength(AT, text);
    CountAtMostLength(DOT, text);
    CountAtMostLength(HYPHEN, text);
  }

  /** What `redact` reports, one entry a pass and one a tabular row. */
  datatype Finding = Finding(reason: Reason, count: nat)

  function Sum(findings: seq<Finding>, n: nat, reason: Reason): nat
    requires n <= |findings|
  {
    if n == 0 then 0 else
    Sum(findings, n - 1, reason) + if findings[n - 1].reason == reason then findings[n - 1].count else 0
  }

  /** The dictionary holds the positive sums of the first `n` findings. */
  ghost predicate SumsUp(reasons: map<Reason, nat>, findings: seq<Finding>, n: nat)
    requires n <= |findings|
  {
    forall r :: (r in reasons <==> Sum(findings, n, r) > 0) && (r in reasons ==> reasons[r] == Sum(findings, n, r))
  }

  method Collect(findings: seq<Finding>) returns (reasons: map<Reason, nat>)
    requires forall i :: 0 <= i < |findings| ==> findings[i].count > 0
    ensures SumsUp(reasons, findings, |findings|)
  {
    reasons := map[];
    for i := 0 to |findings|
      invariant SumsUp(reasons, findings, i)
    {
      var (reason, count) := (findings[i].reason, findings[i].count);
      reasons := reasons[reason := (if reason in reasons then reasons[reason] else 0) + count];
    }
  }

  function Once(reason: Reason, count: nat): seq<Finding> {
    if count > 0 then [Finding(reason, count)] else []
  }

  function Repeated(reason: Reason, n: nat): seq<Finding> {
    if n == 0 then [] else Repeated(reason, n - 1) + [Finding(reason, 1)]
  }

  function PiiFindings(r: Redaction): seq<Finding> {
    Once(PiiCard, r.labelled) + Repeated(PiiCard, r.columns) + Once(PiiPhone, r.phones)
    + Once(PiiEmail, r.emails) + Once(PiiJwt, r.jwts) + Once(PiiUuid, r.uuids)
  }

  function Hit(d: Detectors, reason: Reason, text: string): seq<Finding> {
    Once(reason, if d.attempt(reason)(text) then 1 else 0)
  }

  /** The unlabelled phones of the scrubbed text and the attempt patterns of the full text follow. */
  function RestFindings(d: Detectors, text: string): seq<Finding>
    requires DetectorsOk(d)
  {
    Once(PiiPhone, |d.barePhone(Redact(d, text).text)|)
    + Hit(d, ObjectiveChange, text) + Hit(d, SecretDisclosure, text) + Hit(d, OutOfScopeTool, text)
  }

  lemma {:induction false} SumConcat(a: seq<Finding>, b: seq<Finding>, n: nat, reason: Reason)
    requires n <= |b|
    ensures Sum(a + b, |a| + n, reason) == Sum(a, |a|, reason) + Sum(b, n, reason)
  {
    if n > 0 {
      SumConcat(a, b, n - 1, reason);
    } else {
      SumOfPrefix(a, b, |a|, reason);
    }
  }

  lemma {:induction false} SumOfPrefix(a: seq<Finding>, b: seq<Finding>, n: nat, reason: Reason)
    requires n <= |a|
    ensures Sum(a + b, n, reason) == Sum(a, n, reason)
  {
    if n > 0 {
      SumOfPrefix(a, b, n - 1, reason);
    }
  }

  lemma {:induction false} RepeatedSums(reason: Reason, n: nat, other: Reason)
    ensures |Repeated(reason, n)| == n && forall i :: 0 <= i < n ==> Repeated(reason, n)[i] == Finding(reason, 1)
    ensures Sum(Repeated(reason, n), n, other) == if other == reason then n else 0
  {
    if n > 0 {
      RepeatedSums(reason, n - 1, other);
      SumConcat(Repeated(reason, n - 1), [Finding(reason, 1)], 1, other);
      assert Sum([Finding(reason, 1)], 0, other) == 0;
    }
  }

  lemma OnceSums(reason: Reason, count: nat, other: Reason)
    ensures Sum(Once(reason, count), |Once(reason, count)|, other) == if other == reason then count else 0
  {
    if count > 0 {
      assert Sum([Finding(reason, count)], 0, other) == 0;
    }
  }

  lemma PiiFindingsSum(r: Redaction, reason: Reason)
    ensures Sum(PiiFindings(r), |PiiFindings(r)|, reason) ==
      match reason
      case PiiCard => r.labelled + r.columns
      case PiiPhone => r.phones
      case PiiEmail => r.emails
      case PiiJwt => r.jwts
      case PiiUuid => r.uuids
      case _ => 0
  {
    hide Sum, Once, Repeated;
    var (a, b, c) := (Once(PiiCard, r.labelled), Repeated(PiiCard, r.columns), Once(PiiPhone, r.phones));
    var (e, f, g) := (Once(PiiEmail, r.emails), Once(PiiJwt, r.jwts), Once(PiiUuid, r.uuids));
    SumConcat(a, b, |b|, reason);
    SumConcat(a + b, c, |c|, reason);
    SumConcat(a + b + c, e, |e|, reason);
    SumConcat(a + b + c + e, f, |f|, reason);
    SumConcat(a + b + c + e + f, g, |g|, reason);
    RepeatedSums(PiiCard, r.columns, reason);
    OnceSums(PiiCard, r.labelled, reason);
    OnceSums(PiiPhone, r.phones, reason);
    OnceSums(PiiEmail, r.emails, reason);
    OnceSums(PiiJwt, r.jwts, reason);
    OnceSums(PiiUuid, r.uuids, reason);
  }

  lemma RestFindingsSum(d: Detectors, text: string, reason: Reason)
    requires DetectorsOk(d)
    ensures Sum(RestFindings(d, text), |RestFindings(d, text)|, reason) ==
      match reason
      case PiiPhone => |d.barePhone(Redact(d, text).text)|
      case ObjectiveChange | SecretDisclosure | OutOfScopeTool => if d.attempt(reason)(text) then 1 else 0
      case _ => 0
  {
    hide Sum, Once, Redact, DetectorsOk;
    var bare := |d.barePhone(Redact(d, text).text)|;
    var (a, b) := (Once(PiiPhone, bare), Hit(d, ObjectiveChange, text));
    var (c, e) := (Hit(d, SecretDisclosure, text), Hit(d, OutOfScopeTool, text));
    SumConcat(a, b, |b|, reason);
    SumConcat(a + b, c, |c|, reason);
    SumConcat(a + b + c, e, |e|, reason);
    OnceSums(PiiPhone, bare, reason);
    OnceSums(ObjectiveChange, if d.attempt(ObjectiveChange)(text) then 1 else 0, reason);
    OnceSums(SecretDisclosure, if d.attempt(SecretDisclosure)(text) then 1 else 0, reason);
    OnceSums(OutOfScopeTool, if d.attempt(OutOfScopeTool)(text) then 1 else 0, reason);
  }

  function AllFindings(d: Detectors, text: string): seq<Finding>
    requires DetectorsOk(d)
  {
    PiiFindings(Redact(d, text)) + RestFindings(d, text)
  }

  lemma FindingsSum(d: Detectors, text: string, reason: Reason)
    requires DetectorsOk(d)
    ensures Sum(AllFindings(d, text), |AllFindings(d, text)|, reason) == Tally(d, text, reason)
  {
    hide Sum, Redact, DetectorsOk, PiiFindings, RestFindings;
    PiiFindingsSum(Redact(d, text), reason);
    RestFindingsSum(d, text, reason);
    SumConcat(PiiFindings(Redact(d, text)), RestFindings(d, text), |RestFindings(d, text)|, reason);
  }

  lemma FindingsPositive(d: Detectors, text: string)
    requires DetectorsOk(d)
    ensures forall i :: 0 <= i < |AllFindings(d, text)| ==> AllFindings(d, text)[i].count > 0
  {
    hide Sum, Redact, DetectorsOk, Repeated;
    RepeatedSums(PiiCard, Redact(d, text).columns, PiiCard);
  }

  ghost predicate Tallied(d: Detectors, text: string, reasons: map<Reason, nat>)
    requires DetectorsOk(d)
  {
    forall r :: (r in reasons <==> Tally(d, text, r) > 0) && (r in reasons ==> reasons[r] == Tally(d, text, r))
  }

  lemma SumsAreTallies(d: Detectors, text: string, reasons: map<Reason, nat>)
    requires DetectorsOk(d) && SumsUp(reasons, AllFindings(d, text), |AllFindings(d, text)|)
    ensures Tallied(d, text, reasons) && (reasons != map[] <==> exists r :: Tally(d, text, r) > 0)
  {
    hide Redact, Sum, Tally, DetectorsOk, AllFindings;
    forall r ensures Sum(AllFindings(d, text), |AllFindings(d, text)|, r) == Tally(d, text, r) {
      FindingsSum(d, text, r);
    }
    if reasons != map[] {
      var r :| r in reasons;
      assert Tally(d, text, r) > 0;
    }
  }

  /** What the guard must decide: either the longest prefix a receipt accepts of a text that gives no
      reason at all, or the exact count of every reason. */
  ghost predicate Verdict(d: Detectors, body: Body, media: Option<Reason>, p: Preview)
    requires DetectorsOk(d)
  {
    if media.Some? then p == Quarantined(map[media.value := 1])
    else if body.Malformed? then p == Quarantined(map[DecodeInvalidUtf8 := 1])
    else if exists r :: Tally(d, body.text, r) > 0 then p.Quarantined? && Tallied(d, body.text, p.reasons)
    else
      && p.Accepted? && p.preview <= body.text && PreviewFits(p.preview)
      && (p.truncated <==> !PreviewFits(body.text))
      && forall n :: 0 <= n <= |body.text| && PreviewFits(body.text[..n]) ==> n <= |p.preview|
  }

  // ---------------------------------------------------------------- what an accepted preview says

  predicate NoneGated(text: string, spans: seq<Span>, gate: string -> bool)
    requires Ordered(text, spans)
  {
    forall i :: 0 <= i < |spans| ==> !gate(text[spans[i].start..spans[i].stop])
  }

  function Tidied(d: Detectors, text: string): string {
    if text == "" then "" else d.tidy(text)
  }

  /** No card or phone match with the right digits, and no other shape. */
  ghost predicate NoMatches(d: Detectors, text: string)
    requires DetectorsOk(d)
  {
    var tidied := Tidied(d, text);
    && (text != "" ==>
          && NoneGated(text, d.card(text), number => IsCard(d, number))
          && NoneGated(text, d.cardColumn(text), number => IsCard(d, number))
          && NoneGated(tidied, d.phone(tidied), number => IsPhone(d, number))
          && d.email(tidied) == [] && d.jwt(tidied) == [] && d.uuid(tidied) == [])
    && d.barePhone(tidied) == []
  }

  /** No detector and no attempt pattern fires. */
  ghost predicate Clean(d: Detectors, text: string)
    requires DetectorsOk(d)
  {
    && NoMatches(d, text)
    && !d.attempt(ObjectiveChange)(text) && !d.attempt(SecretDisclosure)(text) && !d.attempt(OutOfScopeTool)(text)
  }

  lemma {:induction false} NothingGated(text: string, spans: seq<Span>, n: nat, gate: string -> bool)
    requires Ordered(text, spans) && n <= |spans|
    ensures Gated(text, spans, n, gate) == []
       <==> forall i :: 0 <= i < n ==> !gate(text[spans[i].start..spans[i].stop])
  {
    if n > 0 {
      NothingGated(text, spans, n - 1, gate);
    }
  }

  lemma EmptyPass(text: string, spans: seq<Span>, gate: string -> bool, placeholder: string)
    requires Ordered(text, spans)
    ensures var (after, n) := Pass(text, spans, gate, placeholder);
            (n == 0 <==> NoneGated(text, spans, gate)) && (n == 0 ==> after == text)
  {
    NothingGated(text, spans, |spans|, gate);
    NothingReplaced(text, placeholder);
    hide Gated, Replaced;
  }

  lemma NothingReplaced(text: string, placeholder: string)
    ensures Ordered(text, []) && Replaced(text, [], placeholder) == text
  {
    assert text[0..] == text;
  }

  lemma CleanNumbers(d: Detectors, text: string)
    requires DetectorsOk(d)
    ensures var n := RedactNumbers(d, text); var tidied := d.tidy(text);
            && (n.labelled == 0 && n.columns == 0 && n.phones == 0 <==>
                  && NoneGated(text, d.card(text), number => IsCard(d, number))
                  && NoneGated(text, d.cardColumn(text), number => IsCard(d, number))
                  && NoneGated(tidied, d.phone(tidied), number => IsPhone(d, number)))
            && (n.labelled == 0 && n.columns == 0 && n.phones == 0 ==> n.text == tidied)
  {
    var isCard := number => IsCard(d, number);
    var (t1, labelled) := Pass(text, d.card(text), isCard, CARD);
    var (t2, columns) := Pass(t1, d.cardColumn(t1), isCard, CARD);
    EmptyPass(text, d.card(text), isCard, CARD);
    EmptyPass(t1, d.cardColumn(t1), isCard, CARD);
    EmptyPass(d.tidy(t2), d.phone(d.tidy(t2)), number => IsPhone(d, number), PHONE);
    hide Pass, NoneGated, IsCard, IsPhone;
  }

  predicate FoundNothing(r: Redaction) {
    r.labelled == 0 && r.columns == 0 && r.phones == 0 && r.emails == 0 && r.jwts == 0 && r.uuids == 0
  }

  lemma CleanRedaction(d: Detectors, text: string)
    requires DetectorsOk(d)
    ensures var r := Redact(d, text);
            && (FoundNothing(r) ==> r.text == Tidied(d, text))
            && (FoundNothing(r) && d.barePhone(r.text) == [] <==> NoMatches(d, text))
  {
    if text != "" {
      CleanNumbers(d, text);
      var n := RedactNumbers(d, text);
      NothingReplaced(n.text, EMAIL);
      NothingReplaced(n.text, JWT);
      NothingReplaced(n.text, UUID);
      hide RedactNumbers, NoneGated, Replaced;
    }
  }

  lemma {:induction false} CleanCounts(d: Detectors, text: string)
    requires DetectorsOk(d)
    ensures Clean(d, text) <==> forall r :: Tally(d, text, r) == 0
  {
    hide Redact, RedactNumbers, NoMatches, DetectorsOk;
    CleanRedaction(d, text);
    if forall x :: Tally(d, text, x) == 0 {
      assert Tally(d, text, PiiCard) == 0 && Tally(d, text, PiiPhone) == 0 && Tally(d, text, PiiEmail) == 0;
      assert Tally(d, text, PiiJwt) == 0 && Tally(d, text, PiiUuid) == 0;
      assert Tally(d, text, ObjectiveChange) == 0 && Tally(d, text, SecretDisclosure) == 0;
      assert Tally(d, text, OutOfScopeTool) == 0;
    }
  }

  /** A preview is accepted exactly for a text in UTF-8 of an admitted media type in which nothing
      fires. */
  lemma {:induction false} AcceptedExactly(d: Detectors, body: Body, media: Option<Reason>, p: Preview)
    requires DetectorsOk(d) && Verdict(d, body, media, p)
    ensures p.Accepted? <==> media.None? && body.Utf8? && Clean(d, body.text)
  {
    if body.Utf8? {
      CleanCounts(d, body.text);
    }
    hide Clean, Tally, Tallied, DetectorsOk, PreviewFits;
  }

  /** An accepted preview is the beginning of the text, at most 256 scalars and 512 bytes of it, and all
      of it or so much that one more scalar would be too long. */
  lemma AcceptedPreview(d: Detectors, text: string, media: Option<Reason>, p: Preview)
    requires DetectorsOk(d) && Verdict(d, Utf8(text), media, p) && p.Accepted?
    ensures p.preview <= text && |p.preview| <= 256 && Utf8Size(p.preview, |p.preview|) <= 512
    ensures p.truncated <==> p.preview != text
    ensures p.truncated ==> |p.preview| == 256 || Utf8Size(text[..|p.preview| + 1], |p.preview| + 1) > 512
  {
    hide Tally, Tallied, DetectorsOk, Utf8Size;
    var n := |p.preview|;
    assert p.preview == text[..n];
    if n < |text| {
      assert PreviewFits(text[..n + 1]) ==> n + 1 <= n;
    } else {
      assert text[..n] == text;
    }
    assert text[..|text|] == text;
  }

  /** There is only one such decision. */
  lemma VerdictUnique(d: Detectors, body: Body, media: Option<Reason>, p: Preview, q: Preview)
    requires DetectorsOk(d) && Verdict(d, body, media, p) && Verdict(d, body, media, q)
    ensures p == q
  {
    hide Tally, PreviewFits, DetectorsOk;
    if p.Accepted? {
      assert p.preview == body.text[..|p.preview|] && q.preview == body.text[..|q.preview|];
    } else if media.None? && body.Utf8? {
      assert p.reasons.Keys == q.reasons.Keys;
      assert forall r :: r in p.reasons ==> p.reasons[r] == q.reasons[r];
    }
  }

  /** `guard_response_preview`. */
  method GuardResponsePreview(d: Detectors, body: Body, media: Option<Reason>) returns (result: Preview)
    requires DetectorsOk(d)
    ensures Verdict(d, body, media, result)
  {
    if media.Some? {
      return Quarantined(map[media.value := 1]);
    }
    if body.Malformed? {
      return Quarantined(map[DecodeInvalidUtf8 := 1]);
    }
    var text := body.text;
    hide Redact, Sum, Tally, PreviewFits, DetectorsOk, AllFindings;
    FindingsPositive(d, text);
    var reasons := Collect(AllFindings(d, text));
    SumsAreTallies(d, text, reasons);
    hide SumsUp, Tallied;
    if reasons != map[] {
      return Quarantined(reasons);
    }
    var preview, truncated := BoundedPrefix(text);
    result := Accepted(preview, truncated);
  }
}
