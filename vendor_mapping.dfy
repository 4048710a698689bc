/** The vendor-to-category table and the lookup that tries an exact key first
    and then the first pattern, in table order, that occurs in the merchant name. */
module VendorMapping {
  import opened Wrappers
  import opened Text

  /** An insertion-ordered dictionary from vendor pattern to category name. */
  type Table = seq<(string, string)>

  // The groups of `VENDOR_CATEGORY_MAP`, in the order they are written.

  const HobbyVendors: Table := [
    ("global bike", "Hobby"),
    ("MBO", "Hobby"),
    ("rapha", "Hobby"),
    ("specialized", "Hobby")
  ]

  const PaymentsVendors: Table := [
    ("payment", "Payments"),
    ("paypal", "Payments"),
    ("venmo", "Payments"),
    ("stripe", "Payments"),
    ("square", "Payments")
  ]

  const GroceriesVendors: Table := [
    ("whole foods", "Groceries"),
    ("trader joe", "Groceries"),
    ("safeway", "Groceries"),
    ("kroger", "Groceries"),
    ("sprouts", "Groceries"),
    ("COSTCO WHSE", "Groceries"),
    ("costco.com", "Groceries"),
    ("grocery", "Groceries"),
    ("supermarket", "Groceries"),
    ("Los Altos Ranch Market", "Groceries")
  ]

  const DiningVendors: Table := [
    ("restaurant", "Dining"),
    ("cafe", "Dining"),
    ("coffee", "Dining"),
    ("burger", "Dining"),
    ("pizza", "Dining"),
    ("sushi", "Dining"),
    ("bbq", "Dining"),
    ("diner", "Dining"),
    ("bar", "Dining"),
    ("pub", "Dining")
  ]

  const EntertainmentVendors: Table := [
    ("movie", "Entertainment"),
    ("cinema", "Entertainment"),
    ("theater", "Entertainment"),
    ("concert", "Entertainment"),
    ("game", "Entertainment")
  ]

  const UtilitiesVendors: Table := [
    ("electric", "Utilities"),
    ("water", "Utilities"),
    ("gas company", "Utilities"),
    ("internet", "Utilities"),
    ("phone", "Utilities"),
    ("comcast", "Utilities"),
    ("verizon", "Utilities"),
    ("at&t", "Utilities"),
    ("t-mobile", "Utilities"),
    ("VISIBLE 866", "Utilities"),
    ("CITY OF CHANDLER", "Utilities"),
    ("COX PHOENIX", "Utilities")
  ]

  const TransportationVendors: Table := [
    ("uber", "Transportation"),
    ("lyft", "Transportation"),
    ("taxi", "Transportation"),
    ("airline", "Transportation"),
    ("hotel", "Transportation"),
    ("parking", "Transportation"),
    ("transit", "Transportation"),
    ("COSTCO GAS", "Transportation")
  ]

  const ShoppingVendors: Table := [
    ("amazon", "Shopping"),
    ("walmart", "Shopping"),
    ("target", "Shopping"),
    ("bestbuy", "Shopping"),
    ("mall", "Shopping"),
    ("store", "Shopping")
  ]

  const HealthcareVendors: Table := [
    ("pharmacy", "Healthcare"),
    ("doctor", "Healthcare"),
    ("hospital", "Healthcare"),
    ("clinic", "Healthcare"),
    ("cvs", "Healthcare"),
    ("walgreens", "Healthcare"),
    ("gym", "Healthcare")
  ]

  const DogCareVendors: Table := [
    ("dog", "Dog Care"),
    ("vet", "Dog Care"),
    ("pet", "Dog Care"),
    ("petco", "Dog Care"),
    ("petsmart", "Dog Care")
  ]

  const SubscriptionsVendors: Table := [
    ("subscription", "Subscriptions"),
    ("subscription service", "Subscriptions"),
    ("spotify", "Subscriptions"),
    ("YouTubePremium", "Subscriptions"),
    ("Openai *chatgpt", "Subscriptions"),
    ("Claude.Ai Subscription", "Subscriptions"),
    ("netflix", "Subscriptions"),
    ("hulu", "Subscriptions"),
    ("disney", "Subscriptions")
  ]

  const RefundsVendors: Table := [
    ("refund", "Refunds & Returns"),
    ("return", "Refunds & Returns"),
    ("credit", "Refunds & Returns")
  ]

  /** `VENDOR_CATEGORY_MAP` as written, in insertion order. */
  const VendorCategoryMap: Table :=
    HobbyVendors + PaymentsVendors + GroceriesVendors + DiningVendors + EntertainmentVendors + UtilitiesVendors + TransportationVendors + ShoppingVendors + HealthcareVendors + DogCareVendors + SubscriptionsVendors + RefundsVendors

  /** No key occurs twice, as in any Python dict. */
  predicate UniqueKeys(t: Table) {
    forall i, j :: 0 <= i < j < |t| ==> t[i].0 != t[j].0
  }

  /** `k` is not a key of `t`. */
  predicate NotAKey(t: Table, k: string) {
    forall j :: 0 <= j < |t| ==> t[j].0 != k
  }

  lemma NotAKeyConcat(a: Table, b: Table, k: string)
    requires NotAKey(a, k) && NotAKey(b, k)
    ensures NotAKey(a + b, k)
  {
  }

  /** A name that is a key of no group is a key of no entry of the table. */
  lemma NotAKeyOfTable(k: string)
    requires NotAKey(HobbyVendors, k) && NotAKey(PaymentsVendors, k) && NotAKey(GroceriesVendors, k)
    requires NotAKey(DiningVendors, k) && NotAKey(EntertainmentVendors, k) && NotAKey(UtilitiesVendors, k)
    requires NotAKey(TransportationVendors, k) && NotAKey(ShoppingVendors, k) && NotAKey(HealthcareVendors, k)
    requires NotAKey(DogCareVendors, k) && NotAKey(SubscriptionsVendors, k) && NotAKey(RefundsVendors, k)
    ensures NotAKey(VendorCategoryMap, k)
  {
    var t := HobbyVendors;
    NotAKeyConcat(t, PaymentsVendors, k);
    t := t + PaymentsVendors;
    NotAKeyConcat(t, GroceriesVendors, k);
    t := t + GroceriesVendors;
    NotAKeyConcat(t, DiningVendors, k);
    t := t + DiningVendors;
    NotAKeyConcat(t, EntertainmentVendors, k);
    t := t + EntertainmentVendors;
    NotAKeyConcat(t, UtilitiesVendors, k);
    t := t + UtilitiesVendors;
    NotAKeyConcat(t, TransportationVendors, k);
    t := t + TransportationVendors;
    NotAKeyConcat(t, ShoppingVendors, k);
    t := t + ShoppingVendors;
    NotAKeyConcat(t, HealthcareVendors, k);
    t := t + HealthcareVendors;
    NotAKeyConcat(t, DogCareVendors, k);
    t := t + DogCareVendors;
    NotAKeyConcat(t, SubscriptionsVendors, k);
    t := t + SubscriptionsVendors;
    NotAKeyConcat(t, RefundsVendors, k);
  }

  lemma TakeOfConcat(a: Table, b: Table, n: nat)
    requires n <= |a|
    ensures (a + b)[..n] == a[..n]
  {
  }

  /** The first `n` entries of the table, up to the end of the transportation
      group, are those of the groups before shopping. */
  lemma TablePrefix(n: nat)
    requires n <= 54
    ensures VendorCategoryMap[..n] == (HobbyVendors + PaymentsVendors + GroceriesVendors + DiningVendors
                                       + EntertainmentVendors + UtilitiesVendors + TransportationVendors)[..n]
  {
    var t := HobbyVendors + PaymentsVendors + GroceriesVendors + DiningVendors
             + EntertainmentVendors + UtilitiesVendors + TransportationVendors;
    assert |t| == 54;
    TakeOfConcat(t, ShoppingVendors, n);
    t := t + ShoppingVendors;
    TakeOfConcat(t, HealthcareVendors, n);
    t := t + HealthcareVendors;
    TakeOfConcat(t, DogCareVendors, n);
    t := t + DogCareVendors;
    TakeOfConcat(t, SubscriptionsVendors, n);
    t := t + SubscriptionsVendors;
    TakeOfConcat(t, RefundsVendors, n);
  }

  /** The first five entries are the hobby group and the first payments pattern. */
  lemma TableStart()
    ensures VendorCategoryMap[..4] == HobbyVendors
    ensures VendorCategoryMap[4] == PaymentsVendors[0]
  {
    TablePrefix(5);
    var t := HobbyVendors + PaymentsVendors;
    TakeOfConcat(t, GroceriesVendors, 5);
    t := t + GroceriesVendors;
    TakeOfConcat(t, DiningVendors, 5);
    t := t + DiningVendors;
    TakeOfConcat(t, EntertainmentVendors, 5);
    t := t + EntertainmentVendors;
    TakeOfConcat(t, UtilitiesVendors, 5);
    t := t + UtilitiesVendors;
    TakeOfConcat(t, TransportationVendors, 5);
    assert VendorCategoryMap[..5] == (HobbyVendors + PaymentsVendors)[..5];
    assert VendorCategoryMap[..4] == VendorCategoryMap[..5][..4];
    assert VendorCategoryMap[4] == VendorCategoryMap[..5][4];
  }

  /** The position of key `k` in `t`, or `|t|` when `k` is not a key. */
  function KeyIndex(t: Table, k: string): (i: nat)
    ensures i <= |t|
    ensures forall j :: 0 <= j < i ==> t[j].0 != k
    ensures i < |t| ==> t[i].0 == k
  {
    if t == [] || t[0].0 == k then 0 else 1 + KeyIndex(t[1..], k)
  }

  /** `t.get(k)`: the value stored under exactly `k`. */
  function Get(t: Table, k: string): (r: Option<string>)
    ensures r.None? <==> forall j :: 0 <= j < |t| ==> t[j].0 != k
    ensures r.Some? ==> exists j :: 0 <= j < |t| && t[j] == (k, r.value)
  {
    var i := KeyIndex(t, k);
    if i < |t| then Some(t[i].1) else None
  }

  /** The position of the first entry whose pattern, lower-cased, occurs in `m`, or `|t|`. */
  function FirstMatch(t: Table, m: string): (i: nat)
    ensures i <= |t|
    ensures forall j :: 0 <= j < i ==> !Contains(Lower(t[j].0), m)
    ensures i < |t| ==> Contains(Lower(t[i].0), m)
  {
    if t == [] || Contains(Lower(t[0].0), m) then 0 else 1 + FirstMatch(t[1..], m)
  }

  /** `get_category_from_vendor`: the lower-cased merchant name is looked up as
      a key first; failing that, the category of the first pattern whose
      lower-cased form occurs in it; None when no pattern occurs at all. */
  function GetCategoryFromVendor(t: Table, merchant: string): (r: Option<string>)
    ensures r.None? <==> forall j :: 0 <= j < |t| ==> !Contains(Lower(t[j].0), Lower(merchant))
    ensures r.Some? ==> exists j :: 0 <= j < |t| && t[j].1 == r.value
  {
    var m := Lower(merchant);
    match Get(t, m)
    case Some(c) =>
      var k := KeyIndex(t, m);
      LowerIdempotent(merchant);
      assert OccursAt(m, m, 0);
      assert Contains(Lower(t[k].0), m);
      Some(c)
    case None =>
      var p := FirstMatch(t, m);
      if p < |t| then Some(t[p].1) else None
  }

  /** Only the lower-cased merchant name matters: the lookup ignores case. */
  lemma LookupIgnoresCase(t: Table, merchant: string)
    ensures GetCategoryFromVendor(t, merchant) == GetCategoryFromVendor(t, Lower(merchant))
  {
    LowerIdempotent(merchant);
  }

  /** A merchant whose lower-cased name is a key gets that key's category, even
      when an earlier pattern also occurs in it. */
  lemma ExactKeyFirst(t: Table, merchant: string, i: int)
    requires UniqueKeys(t)
    requires 0 <= i < |t| && t[i].0 == Lower(merchant)
    ensures GetCategoryFromVendor(t, merchant) == Some(t[i].1)
  {
    var k := KeyIndex(t, Lower(merchant));
    assert k <= i;
    assert t[k].0 == t[i].0;
  }

  /** A key holding an upper-case letter is never the exact hit: the merchant
      name is lower-cased before the key test. */
  lemma UppercaseKeyNeverExact(t: Table, merchant: string, i: int, u: int)
    requires 0 <= i < |t| && 0 <= u < |t[i].0| && IsUpper(t[i].0[u])
    ensures KeyIndex(t, Lower(merchant)) != i
  {
    LowerHasNoUpper(merchant, t[i].0);
  }

  /** "MBO" and "COSTCO WHSE" are keys that the exact test can never hit. */
  lemma UppercaseKeysOfTable(merchant: string)
    ensures VendorCategoryMap[1].0 == "MBO" && KeyIndex(VendorCategoryMap, Lower(merchant)) != 1
    ensures VendorCategoryMap[14].0 == "COSTCO WHSE" && KeyIndex(VendorCategoryMap, Lower(merchant)) != 14
  {
    assert VendorCategoryMap[1] == ("MBO", "Hobby");
    assert VendorCategoryMap[14] == ("COSTCO WHSE", "Groceries");
    UppercaseKeyNeverExact(VendorCategoryMap, merchant, 1, 0);
    UppercaseKeyNeverExact(VendorCategoryMap, merchant, 14, 0);
  }

  /** When the name is not a key, the first pattern in table order that occurs
      in it decides, whatever later patterns also occur. */
  lemma FirstPatternWins(t: Table, merchant: string, i: int)
    requires forall j :: 0 <= j < |t| ==> t[j].0 != Lower(merchant)
    requires 0 <= i < |t| && Contains(Lower(t[i].0), Lower(merchant))
    requires forall j :: 0 <= j < i ==> !Contains(Lower(t[j].0), Lower(merchant))
    ensures GetCategoryFromVendor(t, merchant) == Some(t[i].1)
  {
    var p := FirstMatch(t, Lower(merchant));
    assert p <= i;
    assert Contains(Lower(t[p].0), Lower(merchant));
  }

  /** A lower-cased pattern holding a character that `m` lacks does not occur in `m`. */
  lemma PatternAbsent(p: string, m: string, i: int)
    requires 0 <= i < |p| && LowerChar(p[i]) !in m
    ensures !Contains(Lower(p), m)
  {
    ForeignCharNoMatch(Lower(p), m, i);
  }

  /** No pattern of `t` occurs in `m` when each has a character, at position
      `at[j]`, that lower-cased is not in `m`. */
  lemma NoneOccursBy(t: Table, m: string, at: seq<nat>)
    requires |at| == |t|
    requires forall j :: 0 <= j < |t| ==> at[j] < |t[j].0| && LowerChar(t[j].0[at[j]]) !in m
    ensures forall j :: 0 <= j < |t| ==> !Contains(Lower(t[j].0), m)
  {
    forall j | 0 <= j < |t| ensures !Contains(Lower(t[j].0), m) {
      PatternAbsent(t[j].0, m, at[j]);
    }
  }

  /** "AMAZON PAYMENT" is a payment: "payment" is the fifth pattern and none of
      the four hobby patterns before it occurs. */
  lemma AmazonPaymentIsPayments()
    ensures GetCategoryFromVendor(VendorCategoryMap, "AMAZON PAYMENT") == Some("Payments")
  {
    AmazonPaymentLookup("AMAZON PAYMENT", "amazon payment");
  }

  lemma AmazonPaymentLookup(merchant: string, m: string)
    requires merchant == "AMAZON PAYMENT" && m == "amazon payment"
    ensures GetCategoryFromVendor(VendorCategoryMap, merchant) == Some("Payments")
  {
    AmazonPaymentNotAKey(m);
    TableStart();
    PaymentPatternWins(VendorCategoryMap, merchant, m);
  }

  /** In a table starting with the hobby group and then "payment", a merchant
      that is no key and holds "payment" but no hobby pattern is a payment. */
  lemma PaymentPatternWins(t: Table, merchant: string, m: string)
    requires merchant == "AMAZON PAYMENT" && m == "amazon payment"
    requires NotAKey(t, m) && |t| > 4 && t[..4] == HobbyVendors && t[4] == PaymentsVendors[0]
    ensures GetCategoryFromVendor(t, merchant) == Some("Payments")
  {
    assert Lower(merchant) == m;
    NoHobbyPatternInAmazonPayment(m);
    assert forall j :: 0 <= j < 4 ==> t[j] == HobbyVendors[j];
    assert t[4] == ("payment", "Payments");
    assert Lower("payment") == "payment" && OccursAt("payment", m, 7);
    FirstPatternWins(t, merchant, 4);
  }

  /** Neither "amazon payment" nor "amazon refund" is a key of any group. */
  lemma NotAGroupKey(m: string)
    requires m == "amazon payment" || m == "amazon refund"
    ensures NotAKey(HobbyVendors, m) && NotAKey(PaymentsVendors, m) && NotAKey(GroceriesVendors, m)
    ensures NotAKey(DiningVendors, m) && NotAKey(EntertainmentVendors, m) && NotAKey(UtilitiesVendors, m)
    ensures NotAKey(TransportationVendors, m) && NotAKey(ShoppingVendors, m) && NotAKey(HealthcareVendors, m)
    ensures NotAKey(DogCareVendors, m) && NotAKey(SubscriptionsVendors, m) && NotAKey(RefundsVendors, m)
  {
    NotAKeyOfFirstGroups(m);
    NotAKeyOfMiddleGroups(m);
    NotAKeyOfLastGroups(m);
  }

  lemma NotAKeyOfFirstGroups(m: string)
    requires m == "amazon payment" || m == "amazon refund"
    ensures NotAKey(HobbyVendors, m) && NotAKey(PaymentsVendors, m) && NotAKey(GroceriesVendors, m)
    ensures NotAKey(DiningVendors, m)
  {
  }

  lemma NotAKeyOfMiddleGroups(m: string)
    requires m == "amazon payment" || m == "amazon refund"
    ensures NotAKey(EntertainmentVendors, m) && NotAKey(UtilitiesVendors, m)
    ensures NotAKey(TransportationVendors, m) && NotAKey(ShoppingVendors, m)
  {
  }

  lemma NotAKeyOfLastGroups(m: string)
    requires m == "amazon payment" || m == "amazon refund"
    ensures NotAKey(HealthcareVendors, m) && NotAKey(DogCareVendors, m)
    ensures NotAKey(SubscriptionsVendors, m) && NotAKey(RefundsVendors, m)
  {
  }

  lemma AmazonPaymentNotAKey(m: string)
    requires m == "amazon payment"
    ensures NotAKey(VendorCategoryMap, m)
  {
    NotAGroupKey(m);
    NotAKeyOfTable(m);
  }

  /** No hobby pattern occurs in "amazon payment". */
  lemma NoHobbyPatternInAmazonPayment(m: string)
    requires m == "amazon payment"
    ensures forall j :: 0 <= j < |HobbyVendors| ==> !Contains(Lower(HobbyVendors[j].0), m)
  {
    NoneOccursBy(HobbyVendors, m, [0, 1, 0, 0]);
  }

  /** "AMAZON REFUND" holds both "amazon" and "refund"; "amazon" comes first in
      the table, so the purchase category wins. */
  lemma AmazonRefundIsShopping()
    ensures VendorCategoryMap[54].0 == "amazon" && VendorCategoryMap[81].0 == "refund"
    ensures Contains(Lower(VendorCategoryMap[81].0), Lower("AMAZON REFUND"))
    ensures GetCategoryFromVendor(VendorCategoryMap, "AMAZON REFUND") == Some("Shopping")
  {
    AmazonRefundLookup("AMAZON REFUND", "amazon refund");
  }

  lemma AmazonRefundLookup(merchant: string, m: string)
    requires merchant == "AMAZON REFUND" && m == "amazon refund"
    ensures VendorCategoryMap[54].0 == "amazon" && VendorCategoryMap[81].0 == "refund"
    ensures Contains(Lower(VendorCategoryMap[81].0), Lower(merchant))
    ensures GetCategoryFromVendor(VendorCategoryMap, merchant) == Some("Shopping")
  {
    assert Lower(merchant) == m;
    AmazonRefundNotAKey(m);
    NoPatternBeforeAmazon(m);
    AmazonAndRefundOccur(m);
    FirstPatternWins(VendorCategoryMap, merchant, 54);
  }

  lemma AmazonRefundNotAKey(m: string)
    requires m == "amazon refund"
    ensures NotAKey(VendorCategoryMap, m)
  {
    NotAGroupKey(m);
    NotAKeyOfTable(m);
  }

  lemma AmazonAndRefundOccur(m: string)
    requires m == "amazon refund"
    ensures VendorCategoryMap[54] == ("amazon", "Shopping")
    ensures VendorCategoryMap[81] == ("refund", "Refunds & Returns")
    ensures Contains(Lower(VendorCategoryMap[54].0), m) && Contains(Lower(VendorCategoryMap[81].0), m)
  {
    assert VendorCategoryMap[54] == ("amazon", "Shopping");
    assert VendorCategoryMap[81] == ("refund", "Refunds & Returns");
    assert Lower("amazon") == "amazon" && Lower("refund") == "refund";
    assert OccursAt("amazon", m, 0) && OccursAt("refund", m, 7);
  }

  /** The first 54 patterns are the groups before shopping; none occurs in "amazon refund". */
  lemma NoPatternBeforeAmazon(m: string)
    requires m == "amazon refund"
    ensures forall j :: 0 <= j < 54 ==> !Contains(Lower(VendorCategoryMap[j].0), m)
  {
    NoHobbyPatternInAmazonRefund(m);
    NoPaymentsPatternInAmazonRefund(m);
    NoGroceriesPatternInAmazonRefund(m);
    NoDiningPatternInAmazonRefund(m);
    NoEntertainmentPatternInAmazonRefund(m);
    NoUtilitiesPatternInAmazonRefund(m);
    NoTransportationPatternInAmazonRefund(m);
    var before := HobbyVendors + PaymentsVendors + GroceriesVendors + DiningVendors
                  + EntertainmentVendors + UtilitiesVendors + TransportationVendors;
    assert |before| == 54 && VendorCategoryMap[..54] == before;
  }

  /** No pattern of the hobby group occurs in "amazon refund". */
  lemma NoHobbyPatternInAmazonRefund(m: string)
    requires m == "amazon refund"
    ensures forall j :: 0 <= j < |HobbyVendors| ==> !Contains(Lower(HobbyVendors[j].0), m)
  {
    NoneOccursBy(HobbyVendors, m, [0, 1, 2, 0]);
  }

  /** No pattern of the payments group occurs in "amazon refund". */
  lemma NoPaymentsPatternInAmazonRefund(m: string)
    requires m == "amazon refund"
    ensures forall j :: 0 <= j < |PaymentsVendors| ==> !Contains(Lower(PaymentsVendors[j].0), m)
  {
    NoneOccursBy(PaymentsVendors, m, [0, 0, 0, 0, 0]);
  }

  /** No pattern of the groceries group occurs in "amazon refund". */
  lemma NoGroceriesPatternInAmazonRefund(m: string)
    requires m == "amazon refund"
    ensures forall j :: 0 <= j < |GroceriesVendors| ==> !Contains(Lower(GroceriesVendors[j].0), m)
  {
    NoneOccursBy(GroceriesVendors, m, [0, 0, 0, 0, 0, 0, 0, 0, 0, 0]);
  }

  /** No pattern of the dining group occurs in "amazon refund". */
  lemma NoDiningPatternInAmazonRefund(m: string)
    requires m == "amazon refund"
    ensures forall j :: 0 <= j < |DiningVendors| ==> !Contains(Lower(DiningVendors[j].0), m)
  {
    NoneOccursBy(DiningVendors, m, [2, 0, 0, 0, 0, 0, 0, 1, 0, 0]);
  }

  /** No pattern of the entertainment group occurs in "amazon refund". */
  lemma NoEntertainmentPatternInAmazonRefund(m: string)
    requires m == "amazon refund"
    ensures forall j :: 0 <= j < |EntertainmentVendors| ==> !Contains(Lower(EntertainmentVendors[j].0), m)
  {
    NoneOccursBy(EntertainmentVendors, m, [2, 0, 0, 0, 0]);
  }

  /** No pattern of the utilities group occurs in "amazon refund". */
  lemma NoUtilitiesPatternInAmazonRefund(m: string)
    requires m == "amazon refund"
    ensures forall j :: 0 <= j < |UtilitiesVendors| ==> !Contains(Lower(UtilitiesVendors[j].0), m)
  {
    NoneOccursBy(UtilitiesVendors, m, [1, 0, 0, 0, 0, 0, 0, 1, 0, 0, 0, 0]);
  }

  /** No pattern of the transportation group occurs in "amazon refund". */
  lemma NoTransportationPatternInAmazonRefund(m: string)
    requires m == "amazon refund"
    ensures forall j :: 0 <= j < |TransportationVendors| ==> !Contains(Lower(TransportationVendors[j].0), m)
  {
    NoneOccursBy(TransportationVendors, m, [1, 0, 0, 1, 0, 0, 0, 0]);
  }

  /** `VENDOR_CATEGORY_MAP[k] = c`: an existing key keeps its place and takes
      the new value; a new key goes at the end. */
  function Put(t: Table, k: string, c: string): (r: Table)
  {
    var i := KeyIndex(t, k);
    if i < |t| then t[i := (k, c)] else t + [(k, c)]
  }

  /** After a put, the key maps to the new value and every other key to what it did. */
  lemma PutGet(t: Table, k: string, c: string, other: string)
    ensures Get(Put(t, k, c), k) == Some(c)
    ensures other != k ==> Get(Put(t, k, c), other) == Get(t, other)
  {
    var r := Put(t, k, c);
    var i := KeyIndex(t, k);
    assert KeyIndex(r, k) == i by {
      assert r[i].0 == k;
    }
    if other != k {
      assert forall j :: 0 <= j < |r| ==> (r[j].0 == other <==> j < |t| && t[j].0 == other);
      var o := KeyIndex(t, other);
      if o < |t| {
        assert KeyIndex(r, other) == o;
      }
    }
  }

  /** A put keeps the keys distinct and every existing pattern where it was, so
      the order of the substring scan is unchanged. */
  lemma PutKeepsOrder(t: Table, k: string, c: string)
    ensures |Put(t, k, c)| >= |t|
    ensures forall j :: 0 <= j < |t| ==> Put(t, k, c)[j].0 == t[j].0
    ensures UniqueKeys(t) ==> UniqueKeys(Put(t, k, c))
  {
  }

  /** After `add_vendor_mapping(v, c)`, looking up `v` itself yields `c`. */
  lemma PutThenLookup(t: Table, vendor: string, c: string)
    ensures GetCategoryFromVendor(Put(t, Lower(vendor), c), vendor) == Some(c)
  {
    PutGet(t, Lower(vendor), c, Lower(vendor));
  }

  /** The module-level dictionary, which `add_vendor_mapping` updates in place. */
  class VendorRegistry {
    var entries: Table

    constructor()
      ensures entries == VendorCategoryMap
    {
      entries := VendorCategoryMap;
    }

    /** `add_vendor_mapping`: store `category` under the lower-cased vendor name. */
    method AddVendorMapping(vendorName: string, category: string)
      modifies this
      ensures entries == Put(old(entries), Lower(vendorName), category)
      ensures GetCategoryFromVendor(entries, vendorName) == Some(category)
    {
      PutThenLookup(entries, vendorName, category);
      entries := Put(entries, Lower(vendorName), category);
    }
  }
}
