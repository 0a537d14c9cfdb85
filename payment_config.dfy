/** The payment configuration: the fixed table of subscription plans, the
    normalisation of Kenyan phone numbers to the international 254 form
    used for M-Pesa payments, and whether a subscription is active. */
module PaymentConfig {
  import opened Common

  // ---------------------------------------------------------------------
  // Plans

  datatype PlanType = Free | Termly | Lifetime

  datatype PlanDetails = PlanDetails(
    name: string,
    price: int,
    currency: string,
    tokens: int,
    features: seq<string>,
    duration: string)

  const FreePlan: PlanDetails := PlanDetails(
    "Free Plan", 0, "KES", 3,
    ["3 AI generations",
     "Basic scheme of work",
     "Limited reports",
     "Community support"],
    "Forever")

  const TermlyPlan: PlanDetails := PlanDetails(
    "Termly Plan", 300, "KES", 50,
    ["50 AI generations per term",
     "Full scheme of work generator",
     "Unlimited reports & lesson plans",
     "Progress tracking",
     "Priority support",
     "Export to PDF/Word"],
    "4 months (1 term)")

  const LifetimePlan: PlanDetails := PlanDetails(
    "Lifetime Plan", 1500, "KES", 999999,
    ["Unlimited AI generations",
     "All features unlocked",
     "Lifetime access",
     "Priority support",
     "Early access to new features",
     "No recurring payments"],
    "Lifetime")

  /** getPlanDetails: the entry of PAYMENT_PLANS for the plan. */
  function GetPlanDetails(planType: PlanType): PlanDetails
  {
    match planType
    case Free => FreePlan
    case Termly => TermlyPlan
    case Lifetime => LifetimePlan
  }

  /** Prices in KES and token allowances of the three plans. */
  lemma {:induction false} PlanPricesAndTokens(planType: PlanType)
    ensures GetPlanDetails(planType).currency == "KES"
    ensures planType == Free ==> GetPlanDetails(planType).price == 0 && GetPlanDetails(planType).tokens == 3
    ensures planType == Termly ==> GetPlanDetails(planType).price == 300 && GetPlanDetails(planType).tokens == 50
    ensures planType == Lifetime ==> GetPlanDetails(planType).price == 1500 && GetPlanDetails(planType).tokens == 999999
  {
  }

  /** A plan that costs more grants more AI tokens, and only the free plan
      costs nothing. */
  lemma {:induction false} DearerPlanGrantsMoreTokens(p: PlanType, q: PlanType)
    ensures GetPlanDetails(p).price < GetPlanDetails(q).price <==>
            GetPlanDetails(p).tokens < GetPlanDetails(q).tokens
    ensures GetPlanDetails(p).price == 0 <==> p == Free
  {
    PlanPricesAndTokens(p);
    PlanPricesAndTokens(q);
  }

  // ---------------------------------------------------------------------
  // formatPhoneNumber

  /** A character matched by `\s` in a JavaScript regular expression. */
  predicate IsWhitespace(c: char)
  {
    c == ' ' || '\t' <= c <= '\r' || c == '\U{00A0}' || c == '\U{1680}' ||
    '\U{2000}' <= c <= '\U{200A}' || c == '\U{2028}' || c == '\U{2029}' ||
    c == '\U{202F}' || c == '\U{205F}' || c == '\U{3000}' || c == '\U{FEFF}'
  }

  predicate NotWhitespace(c: char) { !IsWhitespace(c) }

  /** A character kept by `replace(/[^0-9+]/g, '')`. */
  predicate IsPhoneChar(c: char) { IsDigit(c) || c == '+' }

  /** The characters of `s` that satisfy `keep`, in order: a global
      `replace` of the characters that do not. */
  function Filter(s: string, keep: char -> bool): (r: string)
    ensures |r| <= |s|
    ensures forall i :: 0 <= i < |r| ==> keep(r[i])
  {
    if s == [] then []
    else (if keep(s[0]) then [s[0]] else []) + Filter(s[1..], keep)
  }

  /** Filtering keeps a string whose characters all pass unchanged. */
  lemma {:induction false} FilterKeepsAll(s: string, keep: char -> bool)
    requires forall i :: 0 <= i < |s| ==> keep(s[i])
    ensures Filter(s, keep) == s
  {
    if s != [] {
      assert keep(s[0]);
      FilterKeepsAll(s[1..], keep);
    }
  }

  /** Removing characters the second filter rejects anyway changes nothing:
      a pre-filter that only drops characters outside `keep` is absorbed. */
  lemma {:induction false} FilterAbsorbs(s: string, pre: char -> bool, keep: char -> bool)
    requires forall c :: keep(c) ==> pre(c)
    ensures Filter(Filter(s, pre), keep) == Filter(s, keep)
  {
    if s != [] {
      FilterAbsorbs(s[1..], pre, keep);
      if pre(s[0]) {
        assert Filter(s, pre) == [s[0]] + Filter(s[1..], pre);
        assert ([s[0]] + Filter(s[1..], pre))[1..] == Filter(s[1..], pre);
      } else {
        assert Filter(s, pre) == Filter(s[1..], pre);
      }
    }
  }

  const CountryCode: string := "254"

  /** `phone.replace(/\s+/g, '').replace(/[^0-9+]/g, '')` */
  function CleanPhone(phone: string): string
  {
    Filter(Filter(phone, NotWhitespace), IsPhoneChar)
  }

  /** One leading '+' is dropped. */
  function DropPlus(s: string): string
  {
    if |s| > 0 && s[0] == '+' then s[1..] else s
  }

  /** A leading trunk prefix '0' becomes the country code. */
  function ReplaceTrunkZero(s: string): string
  {
    if |s| > 0 && s[0] == '0' then CountryCode + s[1..] else s
  }

  function EnsureCountryCode(s: string): string
  {
    if StartsWith(s, CountryCode) then s else CountryCode + s
  }

  /** formatPhoneNumber */
  function FormatPhoneNumber(phone: string): string
  {
    EnsureCountryCode(ReplaceTrunkZero(DropPlus(CleanPhone(phone))))
  }

  /** The whitespace pass is subsumed by the character filter: cleaning
      keeps exactly the digits and '+' signs of the input, in order. */
  lemma {:induction false} CleanPhoneKeepsPhoneChars(phone: string)
    ensures CleanPhone(phone) == Filter(phone, IsPhoneChar)
    ensures forall i :: 0 <= i < |CleanPhone(phone)| ==> IsPhoneChar(CleanPhone(phone)[i])
  {
    FilterAbsorbs(phone, NotWhitespace, IsPhoneChar);
  }

  /** The formatted number begins with the country code 254 and consists of
      digits and '+' signs only. */
  lemma {:induction false} FormatPhoneNumberPhoneChars(phone: string)
    ensures var r := FormatPhoneNumber(phone);
            StartsWith(r, CountryCode) &&
            (forall i :: 0 <= i < |r| ==> IsPhoneChar(r[i]))
  {
    var cleaned := CleanPhone(phone);
    CleanPhoneKeepsPhoneChars(phone);
    var c := DropPlus(cleaned);
    assert forall i :: 0 <= i < |c| ==> IsPhoneChar(c[i]) by {
      if |cleaned| > 0 && cleaned[0] == '+' {
        forall i | 0 <= i < |c| ensures IsPhoneChar(c[i]) {
          assert c[i] == cleaned[i + 1];
        }
      }
    }
    var z := ReplaceTrunkZero(c);
    assert FormatPhoneNumber(phone) == EnsureCountryCode(z);
    if |c| > 0 && c[0] == '0' {
      assert z == CountryCode + c[1..];
    }
  }

  /** Besides the prefix and the characters above: with c the cleaned input
      less one leading '+', a leading '0' of c is replaced by 254, a c that
      already starts with 254 is kept as it is, and any other c gets 254 in
      front, so no subscriber digit is lost. */
  lemma {:induction false} FormatPhoneNumberShape(phone: string)
    ensures var r := FormatPhoneNumber(phone);
            StartsWith(r, CountryCode) &&
            (forall i :: 0 <= i < |r| ==> IsPhoneChar(r[i]))
    ensures var c := DropPlus(CleanPhone(phone));
            var r := FormatPhoneNumber(phone);
            |c| <= |r| <= |c| + 3 &&
            r[3..] == c[|c| - (|r| - 3)..] &&
            (|r| == |c| + 3 <==> !(|c| > 0 && c[0] == '0') && !StartsWith(c, CountryCode))
    ensures var c := DropPlus(CleanPhone(phone));
            |c| > 0 && c[0] == '0' ==> FormatPhoneNumber(phone) == CountryCode + c[1..]
    ensures var c := DropPlus(CleanPhone(phone));
            StartsWith(c, CountryCode) ==> FormatPhoneNumber(phone) == c
    ensures var c := DropPlus(CleanPhone(phone));
            !(|c| > 0 && c[0] == '0') && !StartsWith(c, CountryCode) ==> FormatPhoneNumber(phone) == CountryCode + c
  {
    FormatPhoneNumberPhoneChars(phone);
    var c := DropPlus(CleanPhone(phone));
    var z := ReplaceTrunkZero(c);
    var r := FormatPhoneNumber(phone);
    assert r == EnsureCountryCode(z);
    if |c| > 0 && c[0] == '0' {
      assert z == CountryCode + c[1..];
      assert StartsWith(z, CountryCode);
      assert r == z;
      assert r[3..] == c[1..];
      assert StartsWith(c, CountryCode) == false;
    } else if StartsWith(c, CountryCode) {
      assert z == c && r == c;
      assert r[3..] == c[3..];
    } else {
      assert z == c;
      assert r == CountryCode + c;
      assert r[3..] == c;
    }
  }

  /** Formatting an already formatted number returns it unchanged. */
  lemma {:induction false} FormatPhoneNumberIdempotent(phone: string)
    ensures FormatPhoneNumber(FormatPhoneNumber(phone)) == FormatPhoneNumber(phone)
  {
    var r := FormatPhoneNumber(phone);
    FormatPhoneNumberPhoneChars(phone);
    CleanPhoneKeepsPhoneChars(r);
    FilterKeepsAll(r, IsPhoneChar);
    assert CleanPhone(r) == r;
    assert r[0] == '2';
    assert DropPlus(r) == r;
    assert ReplaceTrunkZero(r) == r;
  }

  lemma {:induction false} FilterAppend(a: string, b: string, keep: char -> bool)
    ensures Filter(a + b, keep) == Filter(a, keep) + Filter(b, keep)
  {
    if a != [] {
      assert (a + b)[1..] == a[1..] + b;
      FilterAppend(a[1..], b, keep);
    } else {
      assert a + b == b;
    }
  }

  /** A character that is neither a digit nor '+', such as a space or a
      dash, may appear anywhere in the input without changing the result. */
  lemma {:induction false} FormatIgnoresSeparators(a: string, sep: char, b: string)
    requires !IsPhoneChar(sep)
    ensures FormatPhoneNumber(a + [sep] + b) == FormatPhoneNumber(a + b)
  {
    var fa := Filter(a, IsPhoneChar);
    var fb := Filter(b, IsPhoneChar);
    FilterAppend(a + [sep], b, IsPhoneChar);
    FilterAppend(a, [sep], IsPhoneChar);
    FilterAppend(a, b, IsPhoneChar);
    var none := Filter([sep], IsPhoneChar);
    assert none == [] by {
      assert [sep][1..] == [];
    }
    assert Filter(a + [sep], IsPhoneChar) == fa;
    assert Filter(a + [sep] + b, IsPhoneChar) == fa + fb;
    CleanPhoneKeepsPhoneChars(a + [sep] + b);
    CleanPhoneKeepsPhoneChars(a + b);
    assert CleanPhone(a + [sep] + b) == CleanPhone(a + b);
  }

  /** A local number, trunk prefix 0 and digits, becomes 254 followed by the
      same digits (0712345678 gives 254712345678). */
  lemma {:induction false} FormatLocalNumber(digits: string)
    requires forall i :: 0 <= i < |digits| ==> IsDigit(digits[i])
    ensures FormatPhoneNumber("0" + digits) == CountryCode + digits
  {
    var local := "0" + digits;
    CleanPhoneKeepsPhoneChars(local);
    FilterKeepsAll(local, IsPhoneChar);
    assert DropPlus(local) == local;
    assert local[1..] == digits;
    assert ReplaceTrunkZero(local) == CountryCode + digits;
    assert (CountryCode + digits)[..3] == CountryCode;
  }

  /** An international number, '+', 254 and digits, only loses its '+'
      (+254712345678 gives 254712345678). */
  lemma {:induction false} FormatInternationalNumber(digits: string)
    requires forall i :: 0 <= i < |digits| ==> IsDigit(digits[i])
    ensures FormatPhoneNumber("+" + CountryCode + digits) == CountryCode + digits
  {
    var intl := "+" + CountryCode + digits;
    CleanPhoneKeepsPhoneChars(intl);
    FilterKeepsAll(intl, IsPhoneChar);
    assert intl[1..] == CountryCode + digits;
    var c := CountryCode + digits;
    assert DropPlus(intl) == c;
    assert c[0] == '2';
    assert ReplaceTrunkZero(c) == c;
    assert c[..3] == CountryCode;
  }

  // ---------------------------------------------------------------------
  // Subscriptions

  datatype SubscriptionStatus = Active | Expired | Cancelled

  datatype Subscription = Subscription(
    id: string,
    userId: string,
    planType: PlanType,
    status: SubscriptionStatus,
    aiTokensRemaining: int,
    aiTokensTotal: int,
    termYear: Option<int>,
    termNumber: Option<int>,
    startedAt: string,
    expiresAt: Option<string>,
    createdAt: string,
    updatedAt: string)

  /** isSubscriptionActive. `now` is the current time and `parseDate` the
      time a date text denotes (None for an invalid date, whose comparison
      is false), both in milliseconds. An empty expiry text is falsy and
      counts as no expiry. */
  predicate IsSubscriptionActive(subscription: Subscription, parseDate: string -> Option<int>, now: int)
  {
    if subscription.status != Active then false
    else match subscription.expiresAt
      case None => true
      case Some(text) =>
        if text == "" then true
        else match parseDate(text)
          case None => false
          case Some(expiry) => expiry > now
  }

  /** Only an active subscription can be active; without an expiry, or with
      an empty expiry text, it is active, and with a valid expiry it is active exactly while the expiry
      lies strictly in the future. */
  lemma {:induction false} SubscriptionActiveRules(subscription: Subscription, parseDate: string -> Option<int>, now: int)
    ensures subscription.status != Active ==> !IsSubscriptionActive(subscription, parseDate, now)
    ensures subscription.status == Active && subscription.expiresAt.None? ==>
              IsSubscriptionActive(subscription, parseDate, now)
    ensures subscription.status == Active && subscription.expiresAt == Some("") ==>
              IsSubscriptionActive(subscription, parseDate, now)
    ensures subscription.status == Active && subscription.expiresAt.Some? && subscription.expiresAt.value != "" ==>
              (IsSubscriptionActive(subscription, parseDate, now) <==>
               parseDate(subscription.expiresAt.value).Some? && parseDate(subscription.expiresAt.value).value > now)
  {
  }

  /** Activity only ends: a subscription active at some time was active at
      every earlier time, so once inactive it stays inactive. */
  lemma {:induction false} ActiveEarlier(subscription: Subscription, parseDate: string -> Option<int>, earlier: int, later: int)
    requires earlier <= later
    ensures IsSubscriptionActive(subscription, parseDate, later) ==> IsSubscriptionActive(subscription, parseDate, earlier)
  {
  }
}
