/**
 * The three records of the store (Models/Account.cs, Models/Transactions.cs,
 * Models/Performance.cs), the typed form of a PATCH body, and the HTTP outcomes.
 *
 * Amounts are `decimal(15,2)` columns: exact base-10 values with two decimals,
 * held here as whole hundredths (`Cents`). Instants (`DateTime`) are opaque `int`s.
 */
module Models {

  import opened Wrappers
  import opened Text
  import Query

  type Cents = int
  type Timestamp = int

  datatype Account = Account(
    id: int,                    // surrogate key, an identity column
    accountId: string,          // business key, unique
    accountName: string,
    initialDeposit: Cents,
    currentBalance: Cents,
    currency: string,
    description: Option<string>,
    createdDate: Timestamp,
    isActive: bool,
    createdAt: Timestamp,
    updatedAt: Timestamp)

  /** A ledger entry; `kind` is the `Type` column ("DEPOSIT" or "WITHDRAWAL" by convention only). */
  datatype Transaction = Transaction(
    id: int,
    accountId: string,
    kind: string,
    amount: Cents,
    description: Option<string>,
    transactionDate: Timestamp,
    createdAt: Timestamp)

  datatype Performance = Performance(
    id: int,
    fxId: string,
    accountBase: Option<string>,
    week: int,
    month: int,
    year: int,
    results: Cents,
    dateTime: Timestamp,
    comments: Option<string>,
    filePath: Option<string>,
    totalTrades: Option<int>,
    totalProfit: Option<Cents>,
    maxWin: Option<Cents>,
    minWin: Option<Cents>,
    accountType: Option<string>,
    createdAt: Timestamp,
    updatedAt: Timestamp)

  /**
   * A dynamic JSON value of a PATCH body, given by what each conversion the
   * controllers apply to it yields: `text` is `value?.ToString()` (None for null),
   * and `decimal`, `int32`, `dateTime`, `boolean` are `Convert.ToDecimal`,
   * `ToInt32`, `ToDateTime`, `ToBoolean` (None where the conversion throws).
   */
  datatype Value = Value(
    text: Option<string>,
    decimal: Option<Cents>,
    int32: Option<int>,
    dateTime: Option<Timestamp>,
    boolean: Option<bool>)

  /** One entry of the `Dictionary<string, object>` body, in enumeration order. */
  datatype Update = Update(key: string, value: Value)

  /** `updates.ContainsKey(key)`: exact, case-sensitive. */
  predicate ContainsKey(updates: seq<Update>, key: string) {
    exists i :: 0 <= i < |updates| && updates[i].key == key
  }

  /** Some entry's key selects `field` in the `switch (update.Key.ToLower())`. */
  predicate Mentions(updates: seq<Update>, field: string) {
    exists i :: 0 <= i < |updates| && ToLower(updates[i].key) == field
  }

  lemma MentionsCons(updates: seq<Update>, field: string)
    requires updates != []
    ensures Mentions(updates, field) <==> ToLower(updates[0].key) == field || Mentions(updates[1..], field)
  {
    if Mentions(updates, field) {
      var i :| 0 <= i < |updates| && ToLower(updates[i].key) == field;
      if i > 0 {
        assert updates[1..][i - 1] == updates[i];
      }
    }
    if Mentions(updates[1..], field) {
      var i :| 0 <= i < |updates[1..]| && ToLower(updates[1..][i].key) == field;
      assert updates[i + 1] == updates[1..][i];
    }
  }

  /** The fields the body's keys select once lowered: exactly the ones it mentions. */
  function Selected(updates: seq<Update>): (r: set<string>)
    ensures forall field :: field in r <==> Mentions(updates, field)
  {
    if updates == [] then {}
    else
      var rest := Selected(updates[1..]);
      assert forall field :: Mentions(updates, field) <==> field in {ToLower(updates[0].key)} + rest by {
        forall field | true
          ensures Mentions(updates, field) <==> field in {ToLower(updates[0].key)} + rest
        {
          MentionsCons(updates, field);
        }
      }
      {ToLower(updates[0].key)} + rest
  }

  /** The entries whose lowered key is one of `fields`, in their order: the ones a switch over `fields` acts on. */
  function KnownOnly(updates: seq<Update>, fields: set<string>): (r: seq<Update>)
    ensures forall i :: 0 <= i < |r| ==> ToLower(r[i].key) in fields
    ensures forall field :: Mentions(r, field) <==> field in fields && Mentions(updates, field)
  {
    var p := (u: Update) => ToLower(u.key) in fields;
    var r := Query.Filter(updates, p);
    FilterMentions(updates, fields, p);
    assert forall i :: 0 <= i < |r| ==> ToLower(r[i].key) in fields by {
      forall i | 0 <= i < |r|
        ensures ToLower(r[i].key) in fields
      {
        assert multiset(r)[r[i]] > 0;
      }
    }
    r
  }

  /** Filtering by recognised keys keeps exactly the recognised fields the body mentions. */
  lemma {:induction false} FilterMentions(updates: seq<Update>, fields: set<string>, p: Update -> bool)
    requires forall u :: p(u) <==> ToLower(u.key) in fields
    decreases |updates|
    ensures forall field :: Mentions(Query.Filter(updates, p), field) <==> field in fields && Mentions(updates, field)
  {
    if updates != [] {
      var rest := Query.Filter(updates[1..], p);
      var r := Query.Filter(updates, p);
      FilterMentions(updates[1..], fields, p);
      assert r == (if p(updates[0]) then [updates[0]] else []) + rest;
      forall field | true
        ensures Mentions(r, field) <==> field in fields && Mentions(updates, field)
      {
        MentionsCons(updates, field);
        if p(updates[0]) {
          assert r[0] == updates[0] && r[1..] == rest;
          MentionsCons(r, field);
        } else {
          assert r == rest;
        }
      }
    }
  }

  /** The body with every key lowered, values and order kept. */
  function LoweredKeys(updates: seq<Update>): (r: seq<Update>)
    ensures |r| == |updates|
    ensures forall i :: 0 <= i < |updates| ==> r[i] == Update(ToLower(updates[i].key), updates[i].value)
    ensures LowerCaseKeys(r)
  {
    if updates == [] then []
    else
      var r := [Update(ToLower(updates[0].key), updates[0].value)] + LoweredKeys(updates[1..]);
      assert forall i :: 0 <= i < |updates| ==> r[i] == Update(ToLower(updates[i].key), updates[i].value) by {
        forall i | 0 <= i < |updates|
          ensures r[i] == Update(ToLower(updates[i].key), updates[i].value)
        {
          if i > 0 {
            assert updates[1..][i - 1] == updates[i];
          }
        }
      }
      assert LowerCaseKeys(r) by {
        forall i | 0 <= i < |r|
          ensures IsLowerCase(r[i].key)
        {
          ToLowerIdempotent(updates[i].key);
        }
      }
      r
  }

  /** Every key is written exactly in lower case. */
  predicate LowerCaseKeys(updates: seq<Update>) {
    forall i :: 0 <= i < |updates| ==> IsLowerCase(updates[i].key)
  }

  /**
   * A record while a PATCH body is applied to it; `nulled` names the required
   * (NOT NULL) columns whose latest assignment was null, which makes the save fail.
   */
  datatype Draft<T> = Draft(record: T, nulled: set<string>)

  datatype Status = Ok | Created(id: int) | NoContent | NotFound | BadRequest | ServerError
}
