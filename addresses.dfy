/**
 * The address and customer helpers: choosing an address by language code,
 * splitting a name into first, middle and last name, composing the street,
 * the address unique id, and the address a new customer is built from.
 */
module Addresses {

  import opened Base
  import opened PhpStrings
  import opened Payload

  // ------------------------------------------------------ language lookup

  /**
   * The address has a language_code and, when a code is asked for, the
   * lower-cased prefix of the code's length equals the code.
   */
  predicate MatchesLanguage(a: AddressData, code: Option<string>) {
    "language_code" in a
    && (code.None? || Lower(Prefix(a["language_code"], |code.value|)) == code.value)
  }

  /**
   * The language match ignores ASCII case: an address is English exactly when
   * its language_code starts with `en-` in any case, and Chinese exactly when
   * it starts with `zh-` in any case.
   */
  lemma LanguageMatchIgnoresCase(a: AddressData)
    ensures MatchesLanguage(a, Some("en-")) <==>
      ("language_code" in a && |a["language_code"]| >= 3
       && a["language_code"][0] in {'e', 'E'} && a["language_code"][1] in {'n', 'N'}
       && a["language_code"][2] == '-')
    ensures MatchesLanguage(a, Some("zh-")) <==>
      ("language_code" in a && |a["language_code"]| >= 3
       && a["language_code"][0] in {'z', 'Z'} && a["language_code"][1] in {'h', 'H'}
       && a["language_code"][2] == '-')
  {
    if "language_code" in a && |a["language_code"]| >= 3 {
      var code := a["language_code"];
      var low := Lower(Prefix(code, 3));
      assert |low| == 3;
      assert low == "en-" <==> low[0] == 'e' && low[1] == 'n' && low[2] == '-';
      assert low == "zh-" <==> low[0] == 'z' && low[1] == 'h' && low[2] == '-';
    }
  }

  /** The index of the first address from `i` on that matches the code. */
  function FirstMatchingFrom(addrs: seq<AddressData>, code: Option<string>, i: nat): (r: Option<nat>)
    requires i <= |addrs|
    ensures r.Some? ==> i <= r.value < |addrs| && MatchesLanguage(addrs[r.value], code)
    ensures r.Some? ==> forall j :: i <= j < r.value ==> !MatchesLanguage(addrs[j], code)
    ensures r.None? ==> forall j :: i <= j < |addrs| ==> !MatchesLanguage(addrs[j], code)
    decreases |addrs| - i
  {
    if i == |addrs| then None
    else if MatchesLanguage(addrs[i], code) then Some(i)
    else FirstMatchingFrom(addrs, code, i + 1)
  }

  /**
   * The address getAddressArrayByLanguageCode picks: the first address that
   * matches the code, or none when there is none (or no address list).
   */
  function FindAddress(addresses: Option<seq<AddressData>>, code: Option<string>): (r: Option<AddressData>)
    ensures r.Some? ==> addresses.Some? && MatchesLanguage(r.value, code)
    ensures r.Some? ==> exists k :: (0 <= k < |addresses.value| && addresses.value[k] == r.value
      && forall j :: 0 <= j < k ==> !MatchesLanguage(addresses.value[j], code))
    ensures r.None? && addresses.Some? ==>
      forall j :: 0 <= j < |addresses.value| ==> !MatchesLanguage(addresses.value[j], code)
  {
    if addresses.None? then None
    else match FirstMatchingFrom(addresses.value, code, 0)
      case None => None
      case Some(k) => Some(addresses.value[k])
  }

  /**
   * An address array as getAddressArrayByLanguageCode returns it: the address
   * fields plus the `address_id` taken from uniqid(), which differs on every
   * call.
   */
  datatype AddressArray = AddressArray(fields: AddressData, addressId: nat)

  // ------------------------------------------------------------- names

  /** The trimmed pieces of a trimmed name split on single spaces. */
  function NameParts(name: string): (parts: seq<string>)
    ensures |parts| >= 1
  {
    var raw := Explode(" ", Trim(name));
    seq(|raw|, k requires 0 <= k < |raw| => Trim(raw[k]))
  }

  /** getNameArray's result; a missing first or middle name is NULL. */
  datatype NameArray = NameArray(firstName: Option<string>, middleName: Option<string>, lastName: string)

  /**
   * getNameArray: the last piece is the last name, the first of the others
   * the first name, and the pieces in between, joined by spaces, the middle name.
   */
  function NameArrayOf(name: string): (n: NameArray)
  {
    var parts := NameParts(name);
    var last := parts[|parts| - 1];
    var rest := parts[..|parts| - 1];
    if |rest| == 0 then NameArray(None, None, last)
    else if |rest| == 1 then NameArray(Some(rest[0]), None, last)
    else NameArray(Some(rest[0]), Some(Implode(" ", rest[1..])), last)
  }

  /** The name pieces that are present, in first, middle, last order. */
  function PresentParts(n: NameArray): seq<string> {
    (if n.firstName.Some? then [n.firstName.value] else [])
    + (if n.middleName.Some? then [n.middleName.value] else [])
    + [n.lastName]
  }

  /**
   * Splitting loses nothing: the present name parts, joined by spaces, are the
   * name's pieces joined by spaces. There is a first name exactly when the name
   * has two pieces or more, and a middle name exactly when it has three or more.
   */
  lemma NameArrayLossless(name: string)
    ensures Implode(" ", PresentParts(NameArrayOf(name))) == Implode(" ", NameParts(name))
    ensures NameArrayOf(name).firstName.Some? <==> |NameParts(name)| >= 2
    ensures NameArrayOf(name).middleName.Some? <==> |NameParts(name)| >= 3
    ensures NameArrayOf(name).lastName == NameParts(name)[|NameParts(name)| - 1]
  {
    var parts := NameParts(name);
    var n := NameArrayOf(name);
    var k := |parts|;
    if k == 2 {
      assert PresentParts(n) == parts;
    } else if k >= 3 {
      assert PresentParts(n) == [parts[0], Implode(" ", parts[1..k - 1]), parts[k - 1]];
      MiddleJoined(parts);
    }
  }

  /** Joining the inner pieces first and then the outer three gives the plain join. */
  lemma {:induction false} MiddleJoined(parts: seq<string>)
    requires |parts| >= 3
    ensures Implode(" ", [parts[0], Implode(" ", parts[1..|parts| - 1]), parts[|parts| - 1]]) == Implode(" ", parts)
  {
    var k := |parts|;
    var a, b := parts[0], parts[k - 1];
    var mid := parts[1..k - 1];
    var m := Implode(" ", mid);
    var tail := Implode(" ", [m, b]);
    assert Implode(" ", [a, m, b]) == a + " " + tail by {
      assert [a, m, b][1..] == [m, b];
    }
    assert tail == m + " " + b by {
      assert [m, b][1..] == [b];
      assert Implode(" ", [b]) == b;
    }
    assert Implode(" ", parts) == a + " " + Implode(" ", mid + [b]) by {
      assert parts[1..] == mid + [b];
    }
    ImplodeSnoc(" ", mid, b);
  }

  // ------------------------------------------------------------ street

  /** A field of an address, "" when it is not set (PHP turns the missing NULL into ""). */
  function Field(a: AddressData, key: string): string {
    if key in a then a[key] else ""
  }

  /** The number of bytes of the UTF-8 encoding of one character. */
  function Utf8Width(c: char): nat {
    if c as int < 0x80 then 1 else if c as int < 0x800 then 2 else if c as int < 0x10000 then 3 else 4
  }

  /** strlen: the length of the UTF-8 encoding of a string. */
  function ByteLength(s: string): nat {
    if s == [] then 0 else ByteLength(s[..|s| - 1]) + Utf8Width(s[|s| - 1])
  }

  /**
   * The street of an address: when line 1 is longer than line 3 it stands on
   * its own and lines 2 and 3 share the second row, otherwise lines 1 and 2
   * share the first row and line 3 stands alone; rows are trimmed, joined by a
   * newline and the whole trimmed; an empty street is NULL.
   */
  function Street(a: AddressData): (street: Option<string>)
  {
    var l1 := Field(a, "address_line_1");
    var l2 := Field(a, "address_line_2");
    var l3 := Field(a, "address_line_3");
    var rows := if ByteLength(l1) > ByteLength(l3) then [Trim(l1), Trim(l2 + " " + l3)]
      else [Trim(l1 + " " + l2), Trim(l3)];
    var s := Trim(Implode("\n", rows));
    if |s| > 0 then Some(s) else None
  }

  /** Every character of `s` is whitespace that trim() strips. */
  predicate Blank(s: string) {
    forall i :: 0 <= i < |s| ==> s[i] in TrimChars
  }

  lemma BlankConcat(x: string, y: string)
    ensures Blank(x + y) <==> Blank(x) && Blank(y)
  {
    if Blank(x + y) {
      forall i | 0 <= i < |x| ensures x[i] in TrimChars {
        assert (x + y)[i] == x[i];
      }
      forall i | 0 <= i < |y| ensures y[i] in TrimChars {
        assert (x + y)[|x| + i] == y[i];
      }
    }
    if Blank(x) && Blank(y) {
      forall i | 0 <= i < |x + y| ensures (x + y)[i] in TrimChars {
        if i < |x| {
          assert (x + y)[i] == x[i];
        } else {
          assert (x + y)[i] == y[i - |x|];
        }
      }
    }
  }

  /** A trimmed string is blank only when it is empty, which happens exactly for blank strings. */
  lemma BlankTrim(s: string)
    ensures Blank(Trim(s)) <==> Blank(s)
  {
    TrimEmpty(s);
    TrimEnds(s);
  }

  /** Two rows joined by a newline and trimmed are empty exactly when both rows are blank. */
  lemma JoinedRowsEmpty(r1: string, r2: string)
    ensures Trim(Implode("\n", [r1, r2])) == [] <==> Blank(r1) && Blank(r2)
  {
    assert Implode("\n", [r1, r2]) == r1 + "\n" + r2 by {
      assert [r1, r2][1..] == [r2];
    }
    assert r1 + "\n" + r2 == r1 + ("\n" + r2);
    TrimEmpty(r1 + "\n" + r2);
    BlankConcat(r1, "\n" + r2);
    BlankConcat("\n", r2);
    assert Blank("\n");
  }

  /**
   * The street is NULL exactly when all three address lines are blank (unset
   * lines count as ""); a street that is set neither starts nor ends with
   * whitespace.
   */
  lemma StreetNullIffBlankLines(a: AddressData)
    ensures Street(a).None? <==>
      Blank(Field(a, "address_line_1")) && Blank(Field(a, "address_line_2")) && Blank(Field(a, "address_line_3"))
    ensures Street(a).Some? ==>
      Street(a).value[0] !in TrimChars && Street(a).value[|Street(a).value| - 1] !in TrimChars
  {
    var l1 := Field(a, "address_line_1");
    var l2 := Field(a, "address_line_2");
    var l3 := Field(a, "address_line_3");
    BlankConcat(l1 + " ", l2);
    BlankConcat(l1, " ");
    BlankConcat(l2 + " ", l3);
    BlankConcat(l2, " ");
    assert Blank(" ");
    if ByteLength(l1) > ByteLength(l3) {
      JoinedRowsEmpty(Trim(l1), Trim(l2 + " " + l3));
      BlankTrim(l1);
      BlankTrim(l2 + " " + l3);
      TrimEnds(Implode("\n", [Trim(l1), Trim(l2 + " " + l3)]));
    } else {
      JoinedRowsEmpty(Trim(l1 + " " + l2), Trim(l3));
      BlankTrim(l1 + " " + l2);
      BlankTrim(l3);
      TrimEnds(Implode("\n", [Trim(l1 + " " + l2), Trim(l3)]));
    }
  }

  // --------------------------------------------------------- unique ids

  /** The address unique id: "order-" and the order reference, then "-" and the type when there is one. */
  function AddressUniqueId(reference: string, addressType: string): string {
    "order-" + reference + (if |addressType| > 0 then "-" + addressType else "")
  }

  /** The shared, billing and shipping addresses of one order have three different unique ids. */
  lemma AddressUniqueIdsDistinct(reference: string)
    ensures AddressUniqueId(reference, "") != AddressUniqueId(reference, "billing")
    ensures AddressUniqueId(reference, "") != AddressUniqueId(reference, "shipping")
    ensures AddressUniqueId(reference, "billing") != AddressUniqueId(reference, "shipping")
  {
    assert |AddressUniqueId(reference, "billing")| == |AddressUniqueId(reference, "")| + 8;
    assert |AddressUniqueId(reference, "shipping")| == |AddressUniqueId(reference, "")| + 9;
  }

  // ----------------------------------------------------------- customer

  /**
   * The address a new customer is built from: the first English address if it
   * has a name, else the first Chinese one if it has a name, else the first
   * address with a language code if it has a name; otherwise the order has no
   * usable name and createCustomerEntity throws.
   */
  function CustomerAddress(p: OrderData): (r: Result<AddressData>)
    ensures r.Ok? ==> "name" in r.value && "language_code" in r.value
    ensures r.Err? ==> r.error == NoAddressName(p.orderId)
    ensures var en := FindAddress(p.addresses, Some("en-"));
      en.Some? && "name" in en.value ==> r == Ok(en.value)
    ensures var en := FindAddress(p.addresses, Some("en-"));
      var zh := FindAddress(p.addresses, Some("zh-"));
      !(en.Some? && "name" in en.value) && zh.Some? && "name" in zh.value ==> r == Ok(zh.value)
    ensures var en := FindAddress(p.addresses, Some("en-"));
      var zh := FindAddress(p.addresses, Some("zh-"));
      var first := FindAddress(p.addresses, None);
      (!(en.Some? && "name" in en.value) && !(zh.Some? && "name" in zh.value) && first.Some? && "name" in first.value)
      ==> r == Ok(first.value)
    ensures var en := FindAddress(p.addresses, Some("en-"));
      var zh := FindAddress(p.addresses, Some("zh-"));
      var first := FindAddress(p.addresses, None);
      r.Err? <==> (!(en.Some? && "name" in en.value) && !(zh.Some? && "name" in zh.value)
        && !(first.Some? && "name" in first.value))
  {
    var en := FindAddress(p.addresses, Some("en-"));
    var zh := FindAddress(p.addresses, Some("zh-"));
    var first := FindAddress(p.addresses, None);
    if en.Some? && "name" in en.value then Ok(en.value)
    else if zh.Some? && "name" in zh.value then Ok(zh.value)
    else if first.Some? && "name" in first.value then Ok(first.value)
    else Err(NoAddressName(p.orderId))
  }

  /** An optional field: NULL when the address does not set it. */
  function OptField(a: AddressData, key: string): Option<string> {
    if key in a then Some(a[key]) else None
  }
}
