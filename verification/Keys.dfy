/** The string keys of the provider cache (router.go), of the Redis lists (queue.go), and the
    path ids (api.go). */
module Keys {
  import opened Wrappers
  import opened Text

  function FmtKey(tenant: int, provider: int): string {
    Decimal(tenant) + ":" + Decimal(provider)
  }

  function QueueKey(tenant: int): string {
    "llm:queue:" + Decimal(tenant)
  }

  function ParseID(part: string): Option<int> {
    match ParseInt(TrimSpace(part))
    case Some(id) => if id <= 0 then None else Some(id)
    case None => None
  }

  /** Cache keys never mix tenants or providers; the default slot (t, 0) is no provider's. */
  lemma FmtKeyInjective(t1: int, p1: int, t2: int, p2: int)
    requires FmtKey(t1, p1) == FmtKey(t2, p2)
    ensures t1 == t2 && p1 == p2
  {
    DecimalHasNo(t1, ':');
    DecimalHasNo(t2, ':');
    SplitUnique(Decimal(t1), Decimal(p1), Decimal(t2), Decimal(p2), ':');
    DecimalInjective(t1, t2);
    DecimalInjective(p1, p2);
  }

  lemma QueueKeyInjective(t1: int, t2: int)
    requires QueueKey(t1) == QueueKey(t2)
    ensures t1 == t2
  {
    assert QueueKey(t1)[10..] == Decimal(t1) && QueueKey(t2)[10..] == Decimal(t2);
    DecimalInjective(t1, t2);
  }

  ghost predicate AllZeros(s: string) { forall i :: 0 <= i < |s| ==> s[i] == '0' }

  // The spellings of a positive id that a path segment may use.
  function Spelling(left: string, plus: bool, zeros: string, id: nat, right: string): string {
    left + ((if plus then "+" else "") + (zeros + Unsigned(id))) + right
  }

  lemma {:induction false} ValueIgnoresZeros(zeros: string, id: nat)
    requires AllZeros(zeros)
    ensures AllDigits(zeros + Unsigned(id)) && Value(zeros + Unsigned(id)) == id
  {
    if zeros == [] {
      ValueOfUnsigned(id);
      assert zeros + Unsigned(id) == Unsigned(id);
    } else {
      ValueIgnoresZeros(zeros[1..], id);
      ValueSkipsZero(zeros[1..] + Unsigned(id));
      assert zeros + Unsigned(id) == ['0'] + (zeros[1..] + Unsigned(id));
    }
  }

  lemma {:induction false} SplitZeros(digits: string) returns (zeros: string)
    requires AllDigits(digits) && Value(digits) > 0
    ensures AllZeros(zeros) && digits == zeros + Unsigned(Value(digits))
  {
    zeros := [];
    if digits[0] == '0' {
      assert digits == ['0'] + digits[1..];
      ValueSkipsZero(digits[1..]);
      zeros := SplitZeros(digits[1..]);
      zeros := ['0'] + zeros;
    } else {
      UnsignedOfValue(digits);
    }
  }

  lemma ParseCore(plus: bool, zeros: string, id: nat) returns (core: string)
    requires AllZeros(zeros) && id <= MAX_INT64
    ensures core == (if plus then "+" else "") + (zeros + Unsigned(id))
    ensures ParseInt(core) == Some(id)
    ensures core != [] && !IsSpace(core[0]) && !IsSpace(core[|core| - 1])
  {
    hide Unsigned, Value;
    var digits := zeros + Unsigned(id);
    core := (if plus then "+" else "") + digits;
    ValueIgnoresZeros(zeros, id);
    assert Magnitude(core) == digits;
    assert core[|core| - 1] == digits[|digits| - 1];
  }

  /** Every spelling of an id in range is read as that id (in particular its plain decimal form). */
  lemma ParseIDAccepts(left: string, plus: bool, zeros: string, id: nat, right: string)
    requires AllSpace(left) && AllSpace(right) && AllZeros(zeros) && 0 < id <= MAX_INT64
    ensures ParseID(Spelling(left, plus, zeros, id, right)) == Some(id)
  {
    var core := ParseCore(plus, zeros, id);
    TrimSpacePadded(left, core, right);
  }

  lemma PositiveCore(core: string) returns (plus: bool, zeros: string)
    requires ParseInt(core).Some? && ParseInt(core).value > 0
    ensures var id := ParseInt(core).value;
            id <= MAX_INT64 && AllZeros(zeros) && core == (if plus then "+" else "") + (zeros + Unsigned(id))
  {
    hide Unsigned, Value;
    plus := core[0] == '+';
    zeros := SplitZeros(Magnitude(core));
    assert core == (if plus then "+" else "") + Magnitude(core);
  }

  /** Nothing else is read as an id. */
  lemma ParseIDOnlySpellings(part: string) returns (left: string, plus: bool, zeros: string, right: string)
    requires ParseID(part).Some?
    ensures var id := ParseID(part).value;
            && 0 < id <= MAX_INT64
            && AllSpace(left) && AllSpace(right) && AllZeros(zeros)
            && part == Spelling(left, plus, zeros, id, right)
  {
    left := TrimLeftRemovesSpace(part);
    right := TrimRightRemovesSpace(TrimLeft(part));
    plus, zeros := PositiveCore(TrimSpace(part));
    assert part == left + TrimSpace(part) + right;
  }

  lemma ParseIDInvertsDecimal(id: nat)
    requires 0 < id <= MAX_INT64
    ensures ParseID(Decimal(id)) == Some(id)
  {
    ParseIDAccepts("", false, "", id, "");
    assert Spelling("", false, "", id, "") == Decimal(id);
  }
}
