/**
 * Statement import: TransactionParser turns the extracted JSON rows into
 * transactions, and BankCategoryUpserter counts them per bank and per
 * category and adds those counts to the user's bank and category records.
 */
module Statements {
  import opened Wrappers
  import opened Text
  import opened Json
  import opened Calendar
  import Decimal

  /** AppConstants.UNKNOWN. */
  const Unknown: string := "Unknown"

  /** The fields of a Transaction that the import sets. */
  datatype Txn = Txn(date: Day, description: string, amount: real, balance: real,
                     category: Option<string>, bankName: Option<string>)

  // ---------------------------------------------------------------------
  // TransactionParser
  // ---------------------------------------------------------------------

  /** `s.replaceAll(",", "")`. */
  function WithoutCommas(s: string): (r: string)
    ensures ',' !in r && |r| <= |s|
    ensures forall c :: c in r ==> c in s
  {
    if s == [] then [] else (if s[0] == ',' then [] else [s[0]]) + WithoutCommas(s[1..])
  }

  lemma {:induction false} WithoutCommasAppend(a: string, b: string)
    ensures WithoutCommas(a + b) == WithoutCommas(a) + WithoutCommas(b)
  {
    if a != [] {
      assert (a + b)[0] == a[0];
      assert (a + b)[1..] == a[1..] + b;
      WithoutCommasAppend(a[1..], b);
    } else {
      assert a + b == b;
    }
  }

  /** The value of a string field: blank gives 0, and so does text BigDecimal rejects. */
  function TextAmount(s: string): real {
    if IsBlank(s) then 0.0 else Decimal.Parse(WithoutCommas(s)).GetOr(0.0)
  }

  /**
   * `asBigDecimal(obj, field)`: 0 for a missing or null field, the number
   * for a number, the parsed text for a string, and 0 for anything else.
   */
  function AsDecimal(obj: map<string, Json>, field: string): real {
    if field !in obj then 0.0
    else match obj[field]
      case JNum(n) => n
      case JStr(s) => TextAmount(s)
      case _ => 0.0
  }

  lemma {:induction false} WithoutCommasBlank(s: string)
    requires IsBlank(s)
    ensures IsBlank(WithoutCommas(s))
  {
    if s != [] {
      WithoutCommasBlank(s[1..]);
    }
  }

  /** BigDecimal rejects the empty string and any text starting with a blank. */
  lemma BlankUnparsable(w: string)
    requires IsBlank(w)
    ensures Decimal.Parse(w).None?
  {
    assert Decimal.Parse([]).None?;
    if Decimal.Parse(w).Some? {
      Decimal.ParsedChars(w);
    }
    assert w == [] || !Decimal.NumberChar(w[0]);
  }

  lemma DropComma(a: string, b: string)
    ensures WithoutCommas(a + "," + b) == WithoutCommas(a + b)
  {
    assert WithoutCommas(",") == [];
    WithoutCommasAppend(a, ",");
    assert WithoutCommas(a + ",") == WithoutCommas(a);
    WithoutCommasAppend(a + ",", b);
    WithoutCommasAppend(a, b);
  }

  /** Grouping commas are ignored wherever they stand. */
  lemma CommasIgnored(a: string, b: string)
    ensures TextAmount(a + "," + b) == TextAmount(a + b)
  {
    DropComma(a, b);
    var t := a + "," + b;
    assert t[|a|] == ',';
    assert !IsBlank(t);
    if IsBlank(a + b) {
      WithoutCommasBlank(a + b);
      BlankUnparsable(WithoutCommas(a + b));
    }
  }

  /** Text that is not a number — a blank, a word — is read as 0. */
  lemma UnparsableIsZero(s: string)
    requires Decimal.Parse(WithoutCommas(s)).None?
    ensures TextAmount(s) == 0.0
  {
  }

  /** The decimal text of an integer is read as that integer, as a string or as a number. */
  lemma IntegerTextRead(obj: map<string, Json>, field: string, n: int)
    requires field in obj && (obj[field] == JStr(IntToString(n)) || obj[field] == JNum(n as real))
    ensures AsDecimal(obj, field) == n as real
  {
    if obj[field].JStr? {
      var t := IntToString(n);
      IntTextDigits(n);
      Decimal.ParseIntText(n);
      assert t != [] && !IsSpace(t[0]);
      assert WithoutCommas(t) == t by {
        WithoutCommasPlain(t);
      }
    }
  }

  lemma {:induction false} WithoutCommasPlain(s: string)
    requires ',' !in s
    ensures WithoutCommas(s) == s
  {
    if s != [] {
      WithoutCommasPlain(s[1..]);
    }
  }

  /** Why an element cannot become a transaction (org.json and LocalDate throw). */
  datatype ParseError =
    | NotAnObject(index: nat)
    | NotAString(index: nat, field: string)
    | BadDate(index: nat)

  /** `obj.getString(key)`: the string, or nothing when it is missing or not a string. */
  function GetString(obj: map<string, Json>, key: string): Option<string> {
    if key in obj && obj[key].JStr? then Some(obj[key].s) else None
  }

  /**
   * `obj.optString(key, default)`: the default for a missing or null value,
   * the string itself, and `render` (org.json's `toString`) for other values.
   */
  function OptString(obj: map<string, Json>, key: string, default: string, render: Json -> string): string {
    if key !in obj || obj[key] == JNull then default
    else if obj[key].JStr? then obj[key].s
    else render(obj[key])
  }

  /** The bank name when the row has none: the statement's fallback, else "Unknown". */
  function FallbackBank(fallback: Option<string>): string {
    if fallback.Some? then fallback.value else Unknown
  }

  /** One element of the array, in the order the fields are read. */
  function ParseItem(item: Json, i: nat, fallback: Option<string>,
                     parseDate: string -> Option<Day>, render: Json -> string): Result<Txn, ParseError> {
    if !item.JObj? then Err(NotAnObject(i))
    else
      var obj := item.fields;
      match GetString(obj, "date")
      case None => Err(NotAString(i, "date"))
      case Some(d) =>
        match parseDate(d)
        case None => Err(BadDate(i))
        case Some(day) =>
          match GetString(obj, "description")
          case None => Err(NotAString(i, "description"))
          case Some(desc) =>
            Ok(Txn(day, desc, AsDecimal(obj, "amount"), AsDecimal(obj, "balance"),
                   Some(OptString(obj, "category", Unknown, render)),
                   Some(OptString(obj, "bankName", FallbackBank(fallback), render))))
  }

  /** `parse`: the transactions of all elements, or the failure of the first that fails. */
  function ParseAll(items: seq<Json>, fallback: Option<string>,
                    parseDate: string -> Option<Day>, render: Json -> string): Result<seq<Txn>, ParseError> {
    if items == [] then Ok([])
    else
      match ParseAll(items[..|items| - 1], fallback, parseDate, render)
      case Err(e) => Err(e)
      case Ok(ts) =>
        match ParseItem(items[|items| - 1], |items| - 1, fallback, parseDate, render)
        case Err(e) => Err(e)
        case Ok(t) => Ok(ts + [t])
  }

  /**
   * Parsing succeeds iff every element parses; then there is one
   * transaction per element, in order. Otherwise the failure is that of the
   * first element that fails.
   */
  lemma ParseAllShape(items: seq<Json>, fallback: Option<string>,
                      parseDate: string -> Option<Day>, render: Json -> string)
    ensures var r := ParseAll(items, fallback, parseDate, render);
      (r.Ok? <==> forall i :: 0 <= i < |items| ==> ParseItem(items[i], i, fallback, parseDate, render).Ok?)
      && (r.Ok? ==> |r.value| == |items|
                    && forall i :: 0 <= i < |items| ==> r.value[i] == ParseItem(items[i], i, fallback, parseDate, render).value)
      && (r.Err? ==> exists k :: 0 <= k < |items|
                       && ParseItem(items[k], k, fallback, parseDate, render) == Err(r.error)
                       && forall i :: 0 <= i < k ==> ParseItem(items[i], i, fallback, parseDate, render).Ok?)
  {
    ParseAllParsed(items, fallback, parseDate, render);
    ParseAllFirstErr(items, fallback, parseDate, render);
  }

  /** A successful parse holds, in order, the transaction of every element. */
  lemma {:induction false} ParseAllParsed(items: seq<Json>, fallback: Option<string>,
                                      parseDate: string -> Option<Day>, render: Json -> string)
    ensures var r := ParseAll(items, fallback, parseDate, render);
      r.Ok? ==> |r.value| == |items|
                && forall i :: 0 <= i < |items| ==> ParseItem(items[i], i, fallback, parseDate, render) == Ok(r.value[i])
  {
    if items != [] {
      var n := |items| - 1;
      var init := items[..n];
      ParseAllParsed(init, fallback, parseDate, render);
      assert forall i :: 0 <= i < n ==> init[i] == items[i];
    }
  }

  /** A failed parse fails as its first failing element does. */
  lemma {:induction false} ParseAllFirstErr(items: seq<Json>, fallback: Option<string>,
                                       parseDate: string -> Option<Day>, render: Json -> string)
    ensures var r := ParseAll(items, fallback, parseDate, render);
      r.Err? ==> exists k :: 0 <= k < |items|
                   && ParseItem(items[k], k, fallback, parseDate, render) == Err(r.error)
                   && forall i :: 0 <= i < k ==> ParseItem(items[i], i, fallback, parseDate, render).Ok?
  {
    if items != [] {
      var n := |items| - 1;
      var init := items[..n];
      var q := ParseAll(init, fallback, parseDate, render);
      assert forall i :: 0 <= i < n ==> init[i] == items[i];
      if q.Err? {
        ParseAllFirstErr(init, fallback, parseDate, render);
      } else {
        ParseAllParsed(init, fallback, parseDate, render);
      }
    }
  }

  /**
   * A parsed transaction carries "Unknown" for a missing or null category,
   * and the fallback bank (else "Unknown") for a missing or null bank name;
   * the amounts of rows without them are 0.
   */
  lemma ItemDefaults(item: Json, i: nat, fallback: Option<string>,
                     parseDate: string -> Option<Day>, render: Json -> string)
    requires ParseItem(item, i, fallback, parseDate, render).Ok?
    ensures var t := ParseItem(item, i, fallback, parseDate, render).value;
      var obj := item.fields;
      ("category" !in obj || obj["category"] == JNull ==> t.category == Some(Unknown))
      && ("bankName" !in obj || obj["bankName"] == JNull ==>
            t.bankName == Some(if fallback.Some? then fallback.value else Unknown))
      && ("amount" !in obj || obj["amount"] == JNull ==> t.amount == 0.0)
      && ("balance" !in obj || obj["balance"] == JNull ==> t.balance == 0.0)
      && t.category.Some? && t.bankName.Some?
      && Some(t.description) == GetString(obj, "description")
      && parseDate(obj["date"].s) == Some(t.date)
  {
  }

  /** `parse`: one pass over the array, appending each transaction. */
  method Parse(items: seq<Json>, fallback: Option<string>,
               parseDate: string -> Option<Day>, render: Json -> string)
    returns (r: Result<seq<Txn>, ParseError>)
    ensures r == ParseAll(items, fallback, parseDate, render)
  {
    var transactions: seq<Txn> := [];
    for i := 0 to |items|
      invariant ParseAll(items[..i], fallback, parseDate, render) == Ok(transactions)
    {
      assert items[..i + 1][..i] == items[..i];
      var txn := ParseItem(items[i], i, fallback, parseDate, render);
      if txn.Err? {
        ParseAllErr(items, i + 1, fallback, parseDate, render);
        return Err(txn.error);
      }
      transactions := transactions + [txn.value];
    }
    assert items[..|items|] == items;
    r := Ok(transactions);
  }

  /** A failure in a prefix is the failure of the whole array. */
  lemma {:induction false} ParseAllErr(items: seq<Json>, k: nat, fallback: Option<string>,
                                       parseDate: string -> Option<Day>, render: Json -> string)
    requires k <= |items|
    requires ParseAll(items[..k], fallback, parseDate, render).Err?
    ensures ParseAll(items, fallback, parseDate, render) == ParseAll(items[..k], fallback, parseDate, render)
    decreases |items| - k
  {
    if k < |items| {
      assert items[..k + 1][..k] == items[..k];
      ParseAllErr(items, k + 1, fallback, parseDate, render);
    } else {
      assert items[..k] == items;
    }
  }

  // ---------------------------------------------------------------------
  // BankCategoryUpserter
  // ---------------------------------------------------------------------

  /** The name a transaction is counted under: trimmed, or "Unknown" when null or empty. */
  function KeyOf(name: Option<string>): (k: string)
    ensures k != []
  {
    if name.None? || Trim(name.value) == [] then Unknown else Trim(name.value)
  }

  /** The names the transactions are counted under, bank by bank. */
  function BankKeys(ts: seq<Txn>): (r: seq<string>)
    ensures |r| == |ts|
  {
    seq(|ts|, i requires 0 <= i < |ts| => KeyOf(ts[i].bankName))
  }

  function CategoryKeys(ts: seq<Txn>): (r: seq<string>)
    ensures |r| == |ts|
  {
    seq(|ts|, i requires 0 <= i < |ts| => KeyOf(ts[i].category))
  }

  /** `map.getOrDefault(key, 0L)`. */
  function Lookup(m: map<string, nat>, k: string): nat {
    if k in m then m[k] else 0
  }

  /** The counts map: each name maps to how many times it occurs. */
  function Tally(keys: seq<string>): map<string, nat> {
    if keys == [] then map[]
    else
      var init := keys[..|keys| - 1];
      var k := keys[|keys| - 1];
      Tally(init)[k := Lookup(Tally(init), k) + 1]
  }

  /** The counts map holds exactly the names that occur, each with its number of occurrences. */
  lemma {:induction false} TallySpec(keys: seq<string>)
    ensures forall k :: k in Tally(keys) <==> k in keys
    ensures forall k :: Lookup(Tally(keys), k) == multiset(keys)[k]
  {
    if keys != [] {
      var init := keys[..|keys| - 1];
      var k := keys[|keys| - 1];
      assert keys == init + [k];
      TallySpec(init);
    }
  }

  lemma TallySnoc(keys: seq<string>, k: string)
    ensures Tally(keys + [k]) == Tally(keys)[k := Lookup(Tally(keys), k) + 1]
  {
    assert (keys + [k])[..|keys|] == keys;
  }

  /** Counting one more name. */
  lemma CountStep(keys: seq<string>, i: nat)
    requires i < |keys|
    ensures Tally(keys[..i + 1]) == Tally(keys[..i])[keys[i] := Lookup(Tally(keys[..i]), keys[i]) + 1]
  {
    assert keys[..i + 1] == keys[..i] + [keys[i]];
    TallySnoc(keys[..i], keys[i]);
  }

  predicate Distinct(s: seq<string>) {
    forall i, j :: 0 <= i < j < |s| ==> s[i] != s[j]
  }

  /** The counts taken in the order `order`, 0 for a name without one. */
  function SumOver(order: seq<string>, m: map<string, nat>): nat {
    if order == [] then 0 else Lookup(m, order[0]) + SumOver(order[1..], m)
  }

  lemma {:induction false} SumOverUpdate(order: seq<string>, m: map<string, nat>, x: string, v: nat)
    requires Distinct(order) && x in order
    ensures SumOver(order, m[x := v]) + Lookup(m, x) == SumOver(order, m) + v
  {
    if order[0] == x {
      assert x !in order[1..];
      SumOverOther(order[1..], m, x, v);
    } else {
      SumOverUpdate(order[1..], m, x, v);
    }
  }

  lemma {:induction false} SumOverOther(order: seq<string>, m: map<string, nat>, x: string, v: nat)
    requires x !in order
    ensures SumOver(order, m[x := v]) == SumOver(order, m)
  {
    if order != [] {
      SumOverOther(order[1..], m, x, v);
    }
  }

  lemma {:induction false} SumOverEmpty(order: seq<string>)
    ensures SumOver(order, map[]) == 0
  {
    if order != [] {
      SumOverEmpty(order[1..]);
    }
  }

  /** Over an enumeration of the names, the counts add up to the number of transactions. */
  lemma {:induction false} SumOverTally(order: seq<string>, keys: seq<string>)
    requires Distinct(order) && forall k :: k in keys ==> k in order
    ensures SumOver(order, Tally(keys)) == |keys|
  {
    if keys == [] {
      SumOverEmpty(order);
    } else {
      var init := keys[..|keys| - 1];
      var k := keys[|keys| - 1];
      assert forall x :: x in init ==> x in keys;
      SumOverTally(order, init);
      SumOverUpdate(order, Tally(init), k, Lookup(Tally(init), k) + 1);
    }
  }

  /** A bank or category record: its name and transaction count. */
  datatype Named = Named(name: string, count: nat)

  /** `findByUserAndNameIgnoreCase`: the first record whose name matches ignoring case, or -1. */
  function FindIgnoreCase(records: seq<Named>, name: string): (i: int)
    ensures -1 <= i < |records|
    ensures i >= 0 ==> EqualsIgnoreCase(records[i].name, name)
    ensures forall j :: 0 <= j < |records| && (i == -1 || j < i) ==> !EqualsIgnoreCase(records[j].name, name)
  {
    if records == [] then -1
    else
      var i := FindIgnoreCase(records[..|records| - 1], name);
      if i >= 0 then i
      else if EqualsIgnoreCase(records[|records| - 1].name, name) then |records| - 1
      else -1
  }

  /** One upsert: the matching record grows by `count`, or a new one starts at `count`. */
  function Upserted(records: seq<Named>, name: string, count: nat): seq<Named> {
    var i := FindIgnoreCase(records, name);
    if i >= 0 then records[i := Named(records[i].name, records[i].count + count)]
    else records + [Named(name, count)]
  }

  /** Every name of `order`, in turn, upserted with its count. */
  function UpsertedAll(records: seq<Named>, order: seq<string>, counts: map<string, nat>): seq<Named> {
    if order == [] then records
    else
      var last := order[|order| - 1];
      Upserted(UpsertedAll(records, order[..|order| - 1], counts), last, Lookup(counts, last))
  }

  /** The counts of all records together. */
  function Total(records: seq<Named>): nat {
    if records == [] then 0 else Total(records[..|records| - 1]) + records[|records| - 1].count
  }

  lemma {:induction false} TotalUpdate(records: seq<Named>, i: nat, x: Named)
    requires i < |records|
    ensures Total(records[i := x]) + records[i].count == Total(records) + x.count
  {
    var n := |records| - 1;
    var r := records[i := x];
    assert r[..n] == if i == n then records[..n] else records[..n][i := x];
    if i < n {
      TotalUpdate(records[..n], i, x);
    }
  }

  /**
   * An existing record (matched ignoring case) is incremented by the count and
   * keeps its name; otherwise a record with the name and the count is added.
   * Either way the total grows by exactly the count.
   */
  lemma UpsertedSpec(records: seq<Named>, name: string, count: nat)
    ensures var r := Upserted(records, name, count);
      var i := FindIgnoreCase(records, name);
      Total(r) == Total(records) + count
      && (i >= 0 ==> |r| == |records| && r[i] == Named(records[i].name, records[i].count + count)
                     && forall j :: 0 <= j < |records| && j != i ==> r[j] == records[j])
      && (i < 0 ==> r == records + [Named(name, count)] && forall j :: 0 <= j < |records| ==> !EqualsIgnoreCase(records[j].name, name))
  {
    var i := FindIgnoreCase(records, name);
    if i >= 0 {
      var x := Named(records[i].name, records[i].count + count);
      assert Upserted(records, name, count) == records[i := x];
      TotalUpdate(records, i, x);
    } else {
      var r := records + [Named(name, count)];
      assert Upserted(records, name, count) == r;
      assert r[..|r| - 1] == records;
      assert Total(r) == Total(records) + count;
    }
  }

  lemma UpsertedTotal(records: seq<Named>, name: string, count: nat)
    ensures Total(Upserted(records, name, count)) == Total(records) + count
  {
    UpsertedSpec(records, name, count);
  }

  lemma {:induction false} TotalUpsertedAll(records: seq<Named>, order: seq<string>, counts: map<string, nat>)
    ensures Total(UpsertedAll(records, order, counts)) == Total(records) + SumOver(order, counts)
  {
    if order != [] {
      var init := order[..|order| - 1];
      var last := order[|order| - 1];
      TotalUpsertedAll(records, init, counts);
      UpsertedTotal(UpsertedAll(records, init, counts), last, Lookup(counts, last));
      SumOverAppend(init, last, counts);
      assert init + [last] == order;
    }
  }

  lemma {:induction false} SumOverAppend(order: seq<string>, x: string, m: map<string, nat>)
    ensures SumOver(order + [x], m) == SumOver(order, m) + Lookup(m, x)
  {
    if order == [] {
      assert [x][1..] == [];
    } else {
      assert (order + [x])[1..] == order[1..] + [x];
      SumOverAppend(order[1..], x, m);
    }
  }

  /**
   * After the import, the bank records together count exactly the imported
   * transactions more than before, and so do the category records.
   */
  lemma UpsertAddsTransactions(banks: seq<Named>, categories: seq<Named>, ts: seq<Txn>,
                                bankOrder: seq<string>, categoryOrder: seq<string>)
    requires Distinct(bankOrder) && forall k :: k in BankKeys(ts) ==> k in bankOrder
    requires Distinct(categoryOrder) && forall k :: k in CategoryKeys(ts) ==> k in categoryOrder
    ensures Total(UpsertedAll(banks, bankOrder, Tally(BankKeys(ts)))) == Total(banks) + |ts|
    ensures Total(UpsertedAll(categories, categoryOrder, Tally(CategoryKeys(ts)))) == Total(categories) + |ts|
  {
    TotalUpsertedAll(banks, bankOrder, Tally(BankKeys(ts)));
    SumOverTally(bankOrder, BankKeys(ts));
    TotalUpsertedAll(categories, categoryOrder, Tally(CategoryKeys(ts)));
    SumOverTally(categoryOrder, CategoryKeys(ts));
  }

  /** A user's bank or category repository. */
  class NameStore {
    var records: seq<Named>

    constructor(records: seq<Named>)
      ensures this.records == records
    {
      this.records := records;
    }

    /** Finds the record by name ignoring case and increments it, or saves a new one. */
    method Save(name: string, count: nat)
      modifies this
      ensures records == Upserted(old(records), name, count)
    {
      var i := FindIgnoreCase(records, name);
      if i >= 0 {
        records := records[i := Named(records[i].name, records[i].count + count)];
      } else {
        records := records + [Named(name, count)];
      }
    }
  }

  lemma CountBoth(ts: seq<Txn>, i: nat, bank: string, cat: string)
    requires i < |ts| && bank == KeyOf(ts[i].bankName) && cat == KeyOf(ts[i].category)
    ensures Tally(BankKeys(ts)[..i + 1]) == Tally(BankKeys(ts)[..i])[bank := Lookup(Tally(BankKeys(ts)[..i]), bank) + 1]
    ensures Tally(CategoryKeys(ts)[..i + 1]) == Tally(CategoryKeys(ts)[..i])[cat := Lookup(Tally(CategoryKeys(ts)[..i]), cat) + 1]
  {
    CountStep(BankKeys(ts), i);
    CountStep(CategoryKeys(ts), i);
  }

  /** The trimmed name, or "Unknown" for a null or empty one. */
  method NameKey(name: Option<string>) returns (k: string)
    ensures k == KeyOf(name)
  {
    k := if name.Some? then Trim(name.value) else Unknown;
    if k == [] {
      k := Unknown;
    }
  }

  /** The counting loop: both maps in one pass over the transactions. */
  method Count(transactions: seq<Txn>) returns (bankCounts: map<string, nat>, categoryCounts: map<string, nat>)
    ensures bankCounts == Tally(BankKeys(transactions))
    ensures categoryCounts == Tally(CategoryKeys(transactions))
  {
    bankCounts, categoryCounts := map[], map[];
    for i := 0 to |transactions|
      invariant bankCounts == Tally(BankKeys(transactions)[..i])
      invariant categoryCounts == Tally(CategoryKeys(transactions)[..i])
    {
      var bank := NameKey(transactions[i].bankName);
      var cat := NameKey(transactions[i].category);
      CountBoth(transactions, i, bank, cat);
      bankCounts := bankCounts[bank := Lookup(bankCounts, bank) + 1];
      categoryCounts := categoryCounts[cat := Lookup(categoryCounts, cat) + 1];
    }
    assert BankKeys(transactions)[..|transactions|] == BankKeys(transactions);
    assert CategoryKeys(transactions)[..|transactions|] == CategoryKeys(transactions);
  }

  /** `forEach` over a counts map in `order`, saving each name with its count. */
  method SaveAll(store: NameStore, order: seq<string>, counts: map<string, nat>)
    requires forall k :: k in order ==> k in counts
    modifies store
    ensures store.records == UpsertedAll(old(store.records), order, counts)
  {
    for j := 0 to |order|
      invariant store.records == UpsertedAll(old(store.records), order[..j], counts)
    {
      assert order[..j + 1][..j] == order[..j];
      store.Save(order[j], counts[order[j]]);
    }
    assert order[..|order|] == order;
  }

  /**
   * `upsert(user, transactions)`. HashMap iteration order is unspecified:
   * `bankOrder` and `categoryOrder` enumerate each counts map's names once.
   */
  method Upsert(banks: NameStore, categories: NameStore, transactions: seq<Txn>,
                bankOrder: seq<string>, categoryOrder: seq<string>)
    requires banks != categories
    requires Distinct(bankOrder) && forall k :: k in bankOrder <==> k in BankKeys(transactions)
    requires Distinct(categoryOrder) && forall k :: k in categoryOrder <==> k in CategoryKeys(transactions)
    modifies banks, categories
    ensures banks.records == UpsertedAll(old(banks.records), bankOrder, Tally(BankKeys(transactions)))
    ensures categories.records == UpsertedAll(old(categories.records), categoryOrder, Tally(CategoryKeys(transactions)))
  {
    var bankCounts, categoryCounts := Count(transactions);
    TallySpec(BankKeys(transactions));
    TallySpec(CategoryKeys(transactions));
    SaveAll(banks, bankOrder, bankCounts);
    SaveAll(categories, categoryOrder, categoryCounts);
  }
}
