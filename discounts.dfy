/**
 * Discount codes. Codes are stored upper-cased and looked up by the
 * upper-cased form of what the client sends, so two codes that differ only
 * in letter case are the same code.
 */
module Discounts {
  import opened Records

  function UpperChar(c: char): char
  {
    if 'a' <= c <= 'z' then (c as int - 32) as char else c
  }

  /** No lower-case letter in `s`. */
  predicate IsUpper(s: string)
  {
    forall i :: 0 <= i < |s| ==> !('a' <= s[i] <= 'z')
  }

  /** `s` with every lower-case ASCII letter replaced by its capital. */
  function Upper(s: string): (r: string)
    ensures |r| == |s|
    ensures forall i :: 0 <= i < |s| ==> r[i] == UpperChar(s[i])
    ensures IsUpper(r)
  {
    if s == [] then [] else [UpperChar(s[0])] + Upper(s[1..])
  }

  /** Upper-casing leaves an upper-case string alone, so it is idempotent. */
  lemma UpperOfUpper(s: string)
    requires IsUpper(s)
    ensures Upper(s) == s
  {
  }

  lemma UpperIdempotent(s: string)
    ensures Upper(Upper(s)) == Upper(s)
  {
  }

  /** Every discount is stored under its own code, and that code is upper-case. */
  predicate WellKeyed(discounts: map<string, Discount>)
  {
    forall k :: k in discounts ==> discounts[k].code == k && IsUpper(k)
  }

  /** Some stored code equals `code` up to letter case. */
  predicate Taken(discounts: map<string, Discount>, code: string)
  {
    exists k :: k in discounts && Upper(k) == Upper(code)
  }

  /**
   * The discount create_discount stores for `input`: its code upper-cased,
   * or 400 when that code is already taken in any letter case.
   */
  function Create(discounts: map<string, Discount>, input: DiscountInput, id: string, now: int): (r: Result<Discount>)
    requires WellKeyed(discounts)
    ensures r.Err? <==> Taken(discounts, input.code)
    ensures r.Err? ==> r.error == CodeExists
    ensures r.Ok? ==>
      && r.value.code == Upper(input.code)
      && r.value.code !in discounts
      && WellKeyed(discounts[r.value.code := r.value])
      && r.value == Discount(id, Upper(input.code), input.name, input.description, input.discountType,
                             input.discountValue, input.minOrderAmount, input.maxUses, input.usedCount,
                             input.isActive, input.validFrom, input.validUntil, now)
  {
    var code := Upper(input.code);
    if code in discounts then
      UpperIdempotent(input.code);
      Err(CodeExists)
    else
      assert !Taken(discounts, input.code) by {
        forall k | k in discounts ensures Upper(k) != code {
          UpperOfUpper(k);
        }
      }
      Ok(Discount(id, code, input.name, input.description, input.discountType,
                  input.discountValue, input.minOrderAmount, input.maxUses, input.usedCount,
                  input.isActive, input.validFrom, input.validUntil, now))
  }

  /** After a successful creation no two stored codes are equal up to letter case. */
  lemma CreateKeepsCodesDistinct(discounts: map<string, Discount>, input: DiscountInput, id: string, now: int)
    requires WellKeyed(discounts)
    requires Create(discounts, input, id, now).Ok?
    ensures var d := Create(discounts, input, id, now).value;
      forall j, k :: j in discounts[d.code := d] && k in discounts[d.code := d] && j != k ==> Upper(j) != Upper(k)
  {
  }

  /** valid_until is set and lies before `now`. */
  predicate IsExpired(d: Discount, now: int)
  {
    d.validUntil.Some? && d.validUntil.value < now
  }

  /** A use cap is set (max_uses > 0) and has been reached. */
  predicate IsExhausted(d: Discount)
  {
    d.maxUses > 0 && d.usedCount >= d.maxUses
  }

  /**
   * validate_discount: the active discount stored under the upper-cased
   * code, checked in this order: not expired, not used up, order amount at
   * least the minimum. valid_from is not checked.
   */
  function Validate(discounts: map<string, Discount>, code: string, orderAmount: real, now: int): (r: Result<Discount>)
    ensures var c := Upper(code);
      r.Ok? <==>
        && c in discounts && discounts[c].isActive
        && !IsExpired(discounts[c], now)
        && !IsExhausted(discounts[c])
        && orderAmount >= discounts[c].minOrderAmount
    ensures r.Ok? ==> r.value == discounts[Upper(code)]
    ensures r.Err? ==> r.error.Code() == if Upper(code) in discounts && discounts[Upper(code)].isActive then 400 else 404
    ensures r == Err(Expired) <==>
      var c := Upper(code);
      c in discounts && discounts[c].isActive && IsExpired(discounts[c], now)
    ensures r == Err(UsesExhausted) <==>
      var c := Upper(code);
      c in discounts && discounts[c].isActive && !IsExpired(discounts[c], now) && IsExhausted(discounts[c])
    ensures r.Err? && r.error.BelowMinimum? <==>
      var c := Upper(code);
      && c in discounts && discounts[c].isActive
      && !IsExpired(discounts[c], now) && !IsExhausted(discounts[c])
      && orderAmount < discounts[c].minOrderAmount
    ensures r.Err? && r.error.BelowMinimum? ==> r.error.minimum == discounts[Upper(code)].minOrderAmount
  {
    var c := Upper(code);
    if c !in discounts || !discounts[c].isActive then Err(InvalidCode)
    else
      var d := discounts[c];
      if IsExpired(d, now) then Err(Expired)
      else if IsExhausted(d) then Err(UsesExhausted)
      else if orderAmount < d.minOrderAmount then Err(BelowMinimum(d.minOrderAmount))
      else Ok(d)
  }

  /** Whether a code validates does not depend on the letter case the client used. */
  lemma ValidateIgnoresCase(discounts: map<string, Discount>, a: string, b: string, orderAmount: real, now: int)
    requires Upper(a) == Upper(b)
    ensures Validate(discounts, a, orderAmount, now) == Validate(discounts, b, orderAmount, now)
  {
  }

  /** A discount whose valid_from lies in the future validates all the same. */
  lemma ValidFromIgnored(discounts: map<string, Discount>, code: string, orderAmount: real, now: int, from: int)
    requires Upper(code) in discounts
    ensures var c := Upper(code);
      Validate(discounts, code, orderAmount, now).Ok?
        == Validate(discounts[c := discounts[c].(validFrom := from)], code, orderAmount, now).Ok?
  {
  }
}
