/**
  The chat-identifier normaliser of the sendMessage and sendFileByUrl
  handlers: an identifier that `strconv.Atoi` accepts names a direct chat
  and gets the suffix "@c.us"; anything else names a group and gets "@g.us".
*/
module ChatId {
  import Strconv

  const DirectSuffix := "@c.us"
  const GroupSuffix := "@g.us"

  function Normalize(id: string): (r: string)
    ensures |r| == |id| + 5
    ensures r[..|id|] == id
    ensures r[|id|..] == DirectSuffix <==> Strconv.IsInt(id)
    ensures r[|id|..] == GroupSuffix <==> !Strconv.IsInt(id)
  {
    var suffix := if Strconv.IsInt(id) then DirectSuffix else GroupSuffix;
    assert (id + suffix)[|id|..] == suffix;
    id + suffix
  }

  /**
    The handler code as written: call `strconv.Atoi` and pick the suffix by
    whether it reported an error.  It agrees with `Normalize`.
  */
  method NormalizeWithAtoi(id: string) returns (r: string)
    ensures r == Normalize(id)
  {
    var _, err := Strconv.Atoi(id);
    if err.Some? {
      r := id + GroupSuffix;
    } else {
      r := id + DirectSuffix;
    }
  }

  /** Distinct identifiers never collide after normalisation. */
  lemma NormalizeInjective(a: string, b: string)
    requires Normalize(a) == Normalize(b)
    ensures a == b
  {
    assert |a| == |b|;
    assert a == Normalize(a)[..|a|];
  }

  /**
    Normalisation is not idempotent: a normalised identifier contains '@',
    so a second pass always appends the group suffix.
  */
  lemma NormalizeTwiceAppendsGroup(id: string)
    ensures Normalize(Normalize(id)) == Normalize(id) + GroupSuffix
  {
    var once := Normalize(id);
    assert once[|id|] == '@';
    var m := Strconv.Magnitude(once);
    if |id| == 0 {
      assert m == once && !Strconv.IsDigit(m[0]);
    } else {
      assert m[|id| - 1] == '@' || m[|id|] == '@';
    }
    assert !Strconv.IsInt(once);
    var twice := Normalize(once);
    assert twice == twice[..|once|] + twice[|once|..];
  }

  /**
    A character other than a digit anywhere after the optional leading sign
    makes the identifier a group.
  */
  lemma NonDigitIsGroup(id: string, i: nat)
    requires i < |id| && !Strconv.IsDigit(id[i])
    requires i == 0 ==> id[0] != '+' && id[0] != '-'
    ensures Normalize(id) == id + GroupSuffix
  {
    var m := Strconv.Magnitude(id);
    if |id| > 0 && (id[0] == '+' || id[0] == '-') {
      assert m[i - 1] == id[i];
    } else {
      assert m[i] == id[i];
    }
  }

  /** The identifiers without any digit, "", "+" and "-", are groups. */
  lemma NoDigitsIsGroup(id: string)
    requires |id| <= 1 && (id == [] || id[0] == '+' || id[0] == '-')
    ensures Normalize(id) == id + GroupSuffix
  {
    assert Strconv.Magnitude(id) == [];
  }

  /** Letters among the digits make a group. */
  lemma LettersAreGroups()
    ensures Normalize("abc") == "abc@g.us"
    ensures Normalize("12a") == "12a@g.us"
  {
    NonDigitIsGroup("abc", 0);
    NonDigitIsGroup("12a", 2);
  }

  /** An already normalised identifier is not recognised as numeric. */
  lemma NormalizedIdIsGroup()
    ensures Normalize("123@c.us") == "123@c.us@g.us"
  {
    NonDigitIsGroup("123@c.us", 3);
  }

  /** A sign is allowed in front of the digits. */
  lemma SignedExamples()
    ensures Normalize("+5") == "+5@c.us"
    ensures Normalize("-5") == "-5@c.us"
  {
    assert Strconv.Magnitude("+5") == "5";
    assert Strconv.Magnitude("-5") == "5";
    assert Strconv.Value("5") == 5;
  }

  /** A digit string short enough to be within range is a direct chat. */
  lemma ShortDigitsAreDirect(id: string)
    requires 0 < |id| <= 18 && Strconv.AllDigits(id)
    ensures Normalize(id) == id + DirectSuffix
  {
    Strconv.ValueBound(id);
    Strconv.Pow10Monotone(|id|, 18);
    Strconv.Pow10Of18();
    assert Strconv.Magnitude(id) == id;
  }

  /**
    Twenty or more digits without a leading zero exceed the 64-bit range,
    with or without a sign, so such an identifier is a group.
  */
  lemma LongDigitsAreGroups(id: string)
    requires var m := Strconv.Magnitude(id); |m| >= 20 && Strconv.AllDigits(m) && m[0] != '0'
    ensures Normalize(id) == id + GroupSuffix
  {
    var m := Strconv.Magnitude(id);
    Strconv.ValueLowerBound(m);
    Strconv.Pow10Monotone(19, |m| - 1);
    Strconv.Pow10Of19();
  }

  /** The eighteen leading digits shared by the int64 bounds, in two halves. */
  lemma BoundHighDigits()
    ensures Strconv.AllDigits("922337203") && Strconv.Value("922337203") == 922337203
  {
    var a, b, c := "922", "337", "203";
    Strconv.ThreeDigits('9', '2', '2');
    Strconv.ThreeDigits('3', '3', '7');
    Strconv.ThreeDigits('2', '0', '3');
    Strconv.ValueConcat(a, b);
    Strconv.ValueConcat(a + b, c);
    assert Strconv.Pow10(3) == 1000;
    assert a + b + c == "922337203";
  }

  lemma BoundLowDigits()
    ensures Strconv.AllDigits("685477580") && Strconv.Value("685477580") == 685477580
  {
    var a, b, c := "685", "477", "580";
    Strconv.ThreeDigits('6', '8', '5');
    Strconv.ThreeDigits('4', '7', '7');
    Strconv.ThreeDigits('5', '8', '0');
    Strconv.ValueConcat(a, b);
    Strconv.ValueConcat(a + b, c);
    assert Strconv.Pow10(3) == 1000;
    assert a + b + c == "685477580";
  }

  lemma BoundPrefixValue()
    ensures Strconv.AllDigits("922337203685477580")
    ensures Strconv.Value("922337203685477580") == 922337203685477580
  {
    BoundHighDigits();
    BoundLowDigits();
    Strconv.ValueConcat("922337203", "685477580");
    assert Strconv.Pow10(9) == 1_000_000_000;
    assert "922337203" + "685477580" == "922337203685477580";
  }

  /** The largest int64 and everything above it, written in nineteen digits. */
  lemma NineteenDigitsAtTheBound(last: char)
    requires '7' <= last <= '9'
    ensures var id := "922337203685477580" + [last];
      Normalize(id) == id + (if last == '7' then DirectSuffix else GroupSuffix)
  {
    BoundPrefixValue();
    assert Strconv.AllDigits([last]) && Strconv.Value([last]) == Strconv.DigitValue(last);
    Strconv.ValueConcat("922337203685477580", [last]);
    var id := "922337203685477580" + [last];
    assert Strconv.Magnitude(id) == id;
  }

  /** 2^63 - 1, the largest int64, is a direct chat; 2^63 overflows and is a group. */
  lemma PositiveInt64Bound()
    ensures Normalize("9223372036854775807") == "9223372036854775807@c.us"
    ensures Normalize("9223372036854775808") == "9223372036854775808@g.us"
  {
    NineteenDigitsAtTheBound('7');
    assert "922337203685477580" + ['7'] == "9223372036854775807";
    NineteenDigitsAtTheBound('8');
    assert "922337203685477580" + ['8'] == "9223372036854775808";
  }

  /** -2^63, the smallest int64, is a direct chat. */
  lemma MinInt64IsDirect()
    ensures Normalize("-9223372036854775808") == "-9223372036854775808@c.us"
  {
    BoundPrefixValue();
    var m := "922337203685477580" + ['8'];
    assert Strconv.AllDigits(['8']) && Strconv.Value(['8']) == 8;
    Strconv.ValueConcat("922337203685477580", ['8']);
    assert m == "9223372036854775808";
    var id := "-9223372036854775808";
    assert id == ['-'] + m;
    assert Strconv.Magnitude(id) == m;
  }
}
