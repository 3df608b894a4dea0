/**
 * A payment against an invoice (payment.rb): the closed table of payment
 * methods, the normalisation of the method a caller supplies, the
 * before-validation hook that stores the method's code, and the validations.
 *
 * Strings are ASCII: `strip` removes the whitespace characters space, tab,
 * line feed, vertical tab, form feed and carriage return, and `downcase`
 * maps 'A'..'Z' to 'a'..'z'.  A Ruby Symbol is represented by its name.
 * ActiveRecord's `errors` object is a set of error kinds, one per rule.
 */
module Payments {
  import opened Wrappers

  /** `METHODS` (lines 2-6): symbol name to the integer code that is stored. */
  const Methods: map<string, int> := map["cash" := 1, "check" := 2, "charge" := 3]

  /** The value a caller supplies as `raw_payment_method`. */
  datatype Raw =
    | RStr(s: string)     // a String
    | RSym(name: string)  // a Symbol
    | ROther              // a present value of another class, with no `to_sym` (an Integer, say)
    | RNone               // nil

  /** The failed rule, keyed by the attribute the error is added to. */
  datatype ErrorKind =
    | InvoiceMissing        // :invoice, presence
    | AmountInvalid         // :amount, presence or integer greater than 0
    | MethodIdInvalid       // :payment_method_id, presence or inclusion in the codes
    | RawMethodUnsupported  // :raw_payment_method, "is not supported"
    | RecordFailed          // :base, "Unable to record payment: ..." (added by the invoice)

  // ---------------------------------------------------------------------------
  // The method table

  /** `METHODS[key]`: the code of a method key, nil when the key is not in the table. */
  function MethodCode(key: Option<string>): (code: Option<int>)
    ensures code.Some? <==> key.Some? && key.value in Methods
    ensures code.Some? ==> code.value == Methods[key.value]
    ensures code.Some? ==> code.value in {1, 2, 3} && MethodName(code) == key
  {
    MethodTableBijective();
    if key.Some? && key.value in Methods then Some(Methods[key.value]) else None
  }

  /** `METHODS.key(payment_method_id)` (lines 26-28): the reverse lookup. */
  function MethodName(code: Option<int>): (key: Option<string>)
    ensures key.Some? ==> key.value in Methods && code == Some(Methods[key.value])
    ensures key.None? ==> code.None? || code.value !in Methods.Values
  {
    if code == Some(1) then Some("cash")
    else if code == Some(2) then Some("check")
    else if code == Some(3) then Some("charge")
    else None
  }

  /** The table is a bijection between {cash, check, charge} and {1, 2, 3}. */
  lemma MethodTableBijective()
    ensures Methods.Values == {1, 2, 3}
    ensures forall k :: k in Methods ==> MethodName(Some(Methods[k])) == Some(k)
    ensures forall k1, k2 :: k1 in Methods && k2 in Methods && Methods[k1] == Methods[k2] ==> k1 == k2
    ensures forall c: int :: MethodName(Some(c)).Some? <==> c in {1, 2, 3}
  {
    assert Methods["cash"] == 1 && Methods["check"] == 2 && Methods["charge"] == 3;
    assert Methods.Keys == {"cash", "check", "charge"};
    assert "cash" != "check" && "cash" != "charge" && "check" != "charge";
  }

  // ---------------------------------------------------------------------------
  // Strings: strip and downcase

  predicate IsSpace(c: char) {
    c == ' ' || c == '\t' || c == '\n' || c == '\U{B}' || c == '\U{C}' || c == '\r'
  }

  predicate AllSpace(s: string) {
    forall i :: 0 <= i < |s| ==> IsSpace(s[i])
  }

  function Lower(c: char): (r: char)
    ensures !('A' <= r <= 'Z')
    ensures IsSpace(r) <==> IsSpace(c)
  {
    if 'A' <= c <= 'Z' then (c as int + 32) as char else c
  }

  function Downcase(s: string): string {
    seq(|s|, i requires 0 <= i < |s| => Lower(s[i]))
  }

  /** `downcase` keeps the length, lower-cases each letter, leaves no upper case, and is idempotent. */
  lemma DowncaseLowers(s: string)
    ensures |Downcase(s)| == |s|
    ensures forall i :: 0 <= i < |s| ==> Downcase(s)[i] == Lower(s[i])
    ensures forall i :: 0 <= i < |s| ==> !('A' <= Downcase(s)[i] <= 'Z')
    ensures Downcase(Downcase(s)) == Downcase(s)
  {
    var d := Downcase(s);
    assert forall i :: 0 <= i < |d| ==> Lower(d[i]) == d[i];
  }

  /** `lstrip`: drops the leading whitespace and keeps the rest. */
  function StripLeft(s: string): (r: string)
    ensures |r| <= |s| && r == s[|s| - |r|..] && AllSpace(s[..|s| - |r|])
    ensures r == [] || !IsSpace(r[0])
  {
    if s != [] && IsSpace(s[0]) then StripLeft(s[1..]) else s
  }

  /** `rstrip`: drops the trailing whitespace and keeps the rest. */
  function StripRight(s: string): (r: string)
    ensures |r| <= |s| && r == s[..|r|] && AllSpace(s[|r|..])
    ensures r == [] || !IsSpace(r[|r| - 1])
  {
    if s != [] && IsSpace(s[|s| - 1]) then StripRight(s[..|s| - 1]) else s
  }

  /** `strip`: drops the surrounding whitespace. */
  function Strip(s: string): (r: string)
    ensures r == [] || (!IsSpace(r[0]) && !IsSpace(r[|r| - 1]))
    ensures r == [] <==> AllSpace(s)
  {
    var l := StripLeft(s);
    var r := StripRight(l);
    assert r == [] ==> AllSpace(s) by {
      if r == [] {
        assert s == s[..|s| - |l|] + l;
      }
    }
    assert r != [] ==> !IsSpace(r[0]) by {
      if r != [] { assert r[0] == l[0]; }
    }
    r
  }

  /** Whitespace around a word with non-blank ends is all that `strip` removes. */
  lemma {:induction false} StripPadding(w1: string, t: string, w2: string)
    requires AllSpace(w1) && AllSpace(w2)
    requires t != [] && !IsSpace(t[0]) && !IsSpace(t[|t| - 1])
    ensures Strip(w1 + t + w2) == t
  {
    assert w1 + t + w2 == w1 + (t + w2);
    StripLeftPadding(w1, t + w2);
    StripRightPadding(t, w2);
  }

  lemma {:induction false} StripLeftPadding(w: string, u: string)
    requires AllSpace(w) && u != [] && !IsSpace(u[0])
    ensures StripLeft(w + u) == u
  {
    if w != [] {
      assert (w + u)[1..] == w[1..] + u;
      StripLeftPadding(w[1..], u);
    }
  }

  lemma {:induction false} StripRightPadding(u: string, w: string)
    requires AllSpace(w) && u != [] && !IsSpace(u[|u| - 1])
    ensures StripRight(u + w) == u
  {
    if w != [] {
      assert (u + w)[..|u + w| - 1] == u + w[..|w| - 1];
      StripRightPadding(u, w[..|w| - 1]);
    } else {
      assert u + w == u;
    }
  }

  // ---------------------------------------------------------------------------
  // Normalisation of the raw method

  /** `raw_payment_method.present?`: not nil, not an all-whitespace String, not the empty Symbol. */
  predicate IsPresent(raw: Raw) {
    match raw
    case RStr(s) => !AllSpace(s)
    case RSym(name) => name != []
    case ROther => true
    case RNone => false
  }

  /**
   * `normalize_method` (lines 42-46): a String is stripped, lower-cased and
   * made a Symbol, a Symbol is kept, and a value without `to_sym` (nil
   * included) gives nil instead of raising.
   */
  function Normalize(raw: Raw): (key: Option<string>)
    ensures key.Some? <==> raw.RStr? || raw.RSym?
    ensures raw.RSym? ==> key == Some(raw.name)
    ensures raw.RStr? ==> (key.value == [] <==> AllSpace(raw.s))
  {
    match raw
    case RStr(s) => Some(Downcase(Strip(s)))
    case RSym(name) => Some(name)
    case ROther => None
    case RNone => None
  }

  /** The key made from a String has no upper-case letter and no whitespace at either end. */
  lemma NormalizedStringShape(s: string)
    ensures var key := Normalize(RStr(s)).value;
            (forall i :: 0 <= i < |key| ==> !('A' <= key[i] <= 'Z')) &&
            (key != [] ==> !IsSpace(key[0]) && !IsSpace(key[|key| - 1]))
  {
    var t := Strip(s);
    DowncaseLowers(t);
    assert Normalize(RStr(s)).value == Downcase(t);
  }

  /** The code `set_payment_method_id` would store for a raw method: `METHODS[normalize_method(raw)]`. */
  function Resolve(raw: Raw): Option<int> {
    MethodCode(Normalize(raw))
  }

  /** `payment_method_id` after the before-validation hook (lines 23, 32-35). */
  function AfterHook(code: Option<int>, raw: Raw): Option<int> {
    if IsPresent(raw) then Resolve(raw) else code
  }

  /**
   * `present?` on a String or a Symbol holds exactly when its normalised key is
   * not empty; nil is blank and any other value is present.
   */
  lemma PresentIffKeyNonEmpty(raw: Raw)
    ensures (raw.RStr? || raw.RSym?) ==> (IsPresent(raw) <==> Normalize(raw).value != [])
    ensures raw.RNone? ==> !IsPresent(raw)
    ensures raw.ROther? ==> IsPresent(raw) && Normalize(raw).None?
  {
  }

  /**
   * A raw method resolves to a code of the table, and `payment_method` reads
   * that code back as the normalised key; it resolves to none exactly when
   * normalisation fails or the key is not in the table.
   */
  lemma ResolvedCodeReadsBack(raw: Raw)
    ensures Resolve(raw).Some? ==> Resolve(raw).value in {1, 2, 3} && MethodName(Resolve(raw)) == Normalize(raw)
    ensures Resolve(raw).None? <==> Normalize(raw).None? || Normalize(raw).value !in Methods
  {
  }

  /**
   * The hook rewrites the stored code only for a present raw method, and then
   * stores either nothing or a code that reads back as the normalised key.
   */
  lemma HookOverwritesOnlyWhenPresent(code: Option<int>, raw: Raw)
    ensures !IsPresent(raw) ==> AfterHook(code, raw) == code
    ensures IsPresent(raw) && AfterHook(code, raw).Some? ==>
              AfterHook(code, raw).value in {1, 2, 3} && MethodName(AfterHook(code, raw)) == Normalize(raw)
    ensures IsPresent(raw) && (raw.ROther? || Normalize(raw).value !in Methods) ==> AfterHook(code, raw) == None
  {
  }

  /**
   * Matching is insensitive to case and to surrounding whitespace: any
   * spelling of a method name in any case, padded with any whitespace,
   * resolves to that method's code, exactly as the Symbol does.
   */
  lemma {:induction false} ResolveIgnoresCaseAndPadding(w1: string, t: string, w2: string, k: string)
    requires AllSpace(w1) && AllSpace(w2)
    requires k in Methods && Downcase(t) == k
    ensures IsPresent(RStr(w1 + t + w2))
    ensures Resolve(RStr(w1 + t + w2)) == Resolve(RSym(k)) == Some(Methods[k])
  {
    assert k == "cash" || k == "check" || k == "charge";
    assert t != [] && !IsSpace(t[0]) && !IsSpace(t[|t| - 1]) by {
      assert Lower(t[0]) == k[0] && Lower(t[|t| - 1]) == k[|k| - 1];
    }
    StripPadding(w1, t, w2);
    assert !AllSpace(w1 + t + w2) by {
      assert (w1 + t + w2)[|w1|] == t[0];
    }
  }

  /** A String with no whitespace at its ends is present and normalises to its lower-case form. */
  lemma {:induction false} NormalizeTrimmed(w: string)
    requires w != [] && !IsSpace(w[0]) && !IsSpace(w[|w| - 1])
    ensures IsPresent(RStr(w)) && Normalize(RStr(w)) == Some(Downcase(w))
  {
    assert [] + w + [] == w;
    StripPadding([], w, []);
  }

  /** "Cash" resolves to code 1, the code of :cash. */
  lemma CapitalisedCash()
    ensures Resolve(RStr("Cash")) == Some(1)
  {
    NormalizeTrimmed("Cash");
    assert Downcase("Cash") == "cash";
  }

  /** " cash " resolves to code 1, as :cash does. */
  lemma PaddedCash()
    ensures Resolve(RStr(" cash ")) == Resolve(RSym("cash")) == Some(1)
  {
    var word := "cash";
    assert Downcase(word) == word;
    assert " " + word + " " == " cash ";
    ResolveIgnoresCaseAndPadding(" ", word, " ", word);
  }

  /** "bitcoin" is present but names no method, and a value without `to_sym` names none either. */
  lemma UnsupportedExamples()
    ensures IsPresent(RStr("bitcoin")) && Resolve(RStr("bitcoin")) == None
    ensures IsPresent(ROther) && Resolve(ROther) == None
  {
    NormalizeTrimmed("bitcoin");
    assert Downcase("bitcoin") == "bitcoin";
    assert "bitcoin" !in Methods;
  }

  // ---------------------------------------------------------------------------
  // Validations

  /**
   * The errors `valid?` collects (lines 13-21), given the state after the hook:
   * the invoice is present; the amount is an integer greater than 0; the
   * stored code is one of the table's; and a present raw method normalises
   * to a key of the table.
   */
  function ValidationErrors(hasInvoice: bool, amount: Option<int>, code: Option<int>, raw: Raw): (errs: set<ErrorKind>)
    ensures InvoiceMissing in errs <==> !hasInvoice
    ensures AmountInvalid in errs <==> amount.None? || amount.value < 1
    ensures MethodIdInvalid in errs <==> MethodName(code).None?
    ensures RawMethodUnsupported in errs <==>
              IsPresent(raw) && !(Normalize(raw).Some? && Normalize(raw).value in Methods)
    ensures RecordFailed !in errs
  {
    InvoiceRule(hasInvoice) + AmountRule(amount) + CodeRule(code) + RawRule(raw)
  }

  /** `validates :invoice, presence: true` (line 13). */
  function InvoiceRule(hasInvoice: bool): (errs: set<ErrorKind>)
    ensures errs <= {InvoiceMissing} && (errs == {} <==> hasInvoice)
  {
    if hasInvoice then {} else {InvoiceMissing}
  }

  /** `validates :amount, presence: true, numericality: { only_integer: true, greater_than: 0 }` (lines 14-16). */
  function AmountRule(amount: Option<int>): (errs: set<ErrorKind>)
    ensures errs <= {AmountInvalid} && (errs == {} <==> amount.Some? && amount.value >= 1)
  {
    if amount.Some? && amount.value > 0 then {} else {AmountInvalid}
  }

  /** `validates :payment_method_id, presence: true, inclusion: { in: METHODS.values }` (lines 17-19). */
  function CodeRule(code: Option<int>): (errs: set<ErrorKind>)
    ensures errs <= {MethodIdInvalid} && (errs == {} <==> MethodName(code).Some?)
  {
    if code.Some? && code.value in Methods.Values then {} else {MethodIdInvalid}
  }

  /** `validate :raw_payment_method_is_valid, if: -> { raw_payment_method.present? }` (lines 21, 37-40). */
  function RawRule(raw: Raw): (errs: set<ErrorKind>)
    ensures errs <= {RawMethodUnsupported}
    ensures errs == {} <==> !IsPresent(raw) || (Normalize(raw).Some? && Normalize(raw).value in Methods)
  {
    if IsPresent(raw) && Resolve(raw).None? then {RawMethodUnsupported} else {}
  }

  /**
   * A payment passes validation exactly when its invoice is present, its amount
   * is positive and its method resolves: through the raw method when one is
   * present (the hook overwrites the code), else through the code already stored.
   */
  lemma {:induction false} ValidIff(hasInvoice: bool, amount: Option<int>, code: Option<int>, raw: Raw)
    ensures ValidationErrors(hasInvoice, amount, AfterHook(code, raw), raw) == {} <==>
              hasInvoice && amount.Some? && amount.value > 0 &&
              (if IsPresent(raw) then Resolve(raw).Some? else code.Some? && code.value in {1, 2, 3})
  {
    MethodTableBijective();
    var errs := ValidationErrors(hasInvoice, amount, AfterHook(code, raw), raw);
    if !hasInvoice { assert InvoiceMissing in errs; }
    if !(amount.Some? && amount.value > 0) { assert AmountInvalid in errs; }
    if IsPresent(raw) && Resolve(raw).None? { assert RawMethodUnsupported in errs; }
    if !IsPresent(raw) && !(code.Some? && code.value in {1, 2, 3}) { assert MethodIdInvalid in errs; }
  }

  /**
   * A present raw method that is not in the table (such as "bitcoin") leaves
   * no stored code and is reported both on the code and on the raw method.
   */
  lemma UnsupportedRawRejected(hasInvoice: bool, amount: Option<int>, code: Option<int>, raw: Raw)
    requires IsPresent(raw) && Resolve(raw).None?
    ensures AfterHook(code, raw) == None
    ensures {MethodIdInvalid, RawMethodUnsupported} <= ValidationErrors(hasInvoice, amount, AfterHook(code, raw), raw)
  {
  }

  /**
   * A blank raw method skips both the hook and the raw-method rule: the stored
   * code is kept, and with no code stored the payment fails on the code alone.
   */
  lemma BlankRawSkipped(hasInvoice: bool, amount: Option<int>, code: Option<int>, raw: Raw)
    requires !IsPresent(raw)
    ensures AfterHook(code, raw) == code
    ensures RawMethodUnsupported !in ValidationErrors(hasInvoice, amount, code, raw)
    ensures code.None? ==> ValidationErrors(hasInvoice, Some(1), code, raw) * {MethodIdInvalid, RawMethodUnsupported} == {MethodIdInvalid}
  {
  }

  /** A payment whose amount is zero fails validation, whatever else holds. */
  lemma ZeroAmountRejected(hasInvoice: bool, code: Option<int>, raw: Raw)
    ensures AmountInvalid in ValidationErrors(hasInvoice, Some(0), AfterHook(code, raw), raw)
  {
  }

  // ---------------------------------------------------------------------------
  // The record

  /**
   * A payment record.  The invoice reference, the amount and the raw method
   * are given when the record is built and never change afterwards; the
   * stored code and the error set are written by validation.
   */
  class Payment {
    const hasInvoice: bool
    const amount: Option<int>
    const raw: Raw
    var methodId: Option<int>
    var errors: set<ErrorKind>

    /** A newly built record: no code stored and no errors yet. */
    constructor (hasInvoice: bool, amount: Option<int>, raw: Raw)
      ensures this.hasInvoice == hasInvoice && this.amount == amount && this.raw == raw
      ensures methodId == None && errors == {}
    {
      this.hasInvoice := hasInvoice;
      this.amount := amount;
      this.raw := raw;
      methodId := None;
      errors := {};
    }

    /** `payment_method` (lines 26-28): the symbol for the stored code, if it is one of the table's. */
    function PaymentMethod(): (key: Option<string>)
      reads this
      ensures key.Some? <==> methodId.Some? && methodId.value in Methods.Values
      ensures key.Some? ==> key.value in Methods && Methods[key.value] == methodId.value
    {
      MethodName(methodId)
    }

    /** `set_payment_method_id` (lines 32-35): store the code of the normalised raw method, or nil. */
    method SetPaymentMethodId()
      modifies this`methodId
      ensures methodId == Resolve(raw)
    {
      var key := Normalize(raw);
      methodId := MethodCode(key);
    }

    /** `raw_payment_method_is_valid` (lines 37-40): add an error when the normalised key is not in the table. */
    method RawPaymentMethodIsValid()
      modifies this`errors
      ensures errors == old(errors) + (if Resolve(raw).None? then {RawMethodUnsupported} else {})
    {
      var key := Normalize(raw);
      if !(key.Some? && key.value in Methods) {
        errors := errors + {RawMethodUnsupported};
      }
    }

    /**
     * `valid?` (lines 13-23): clear the errors, run the hook when the raw
     * method is present, then every validation in the order declared.
     */
    method Validate() returns (ok: bool)
      modifies this`methodId, this`errors
      ensures methodId == AfterHook(old(methodId), raw)
      ensures errors == ValidationErrors(hasInvoice, amount, methodId, raw)
      ensures ok <==> errors == {}
    {
      errors := {};
      if IsPresent(raw) {
        SetPaymentMethodId();
      }
      if !hasInvoice {
        errors := errors + {InvoiceMissing};
      }
      assert errors == InvoiceRule(hasInvoice);
      if !(amount.Some? && amount.value > 0) {
        errors := errors + {AmountInvalid};
      }
      assert errors == InvoiceRule(hasInvoice) + AmountRule(amount);
      if !(methodId.Some? && methodId.value in Methods.Values) {
        errors := errors + {MethodIdInvalid};
      }
      assert errors == InvoiceRule(hasInvoice) + AmountRule(amount) + CodeRule(methodId);
      if IsPresent(raw) {
        RawPaymentMethodIsValid();
      }
      assert errors == InvoiceRule(hasInvoice) + AmountRule(amount) + CodeRule(methodId) + RawRule(raw);
      ok := errors == {};
    }
  }
}
