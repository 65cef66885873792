/**
 * The payment-intent table and its queries. The table is the sequence of
 * saved rows in insertion order; a save replaces the row with the same id
 * in place or appends a new one, and "order by createdAt desc" takes the
 * matching rows newest first.
 */
module IntentRepository {
  import opened Wrappers
  import opened Domain
  import opened Queries

  /** A UUID in its canonical text form. */
  type Uuid = string

  datatype PaymentIntent = PaymentIntent(
    id: Uuid,
    merchantId: Uuid,
    amountMinor: int,
    currency: string,
    description: Option<string>,
    status: PaymentStatus,
    provider: Provider,
    providerRef: Option<string>,
    idempotencyKey: Option<string>,
    routingDecisionId: Option<Uuid>,
    routingReasonCode: Option<string>,
    rootPaymentIntentId: Option<Uuid>,
    attemptNumber: int,
    createdAt: Millis)

  type Table = seq<PaymentIntent>

  /** The id is the primary key. */
  predicate UniqueIds(t: Table) {
    forall i, j :: 0 <= i < j < |t| ==> t[i].id != t[j].id
  }

  function CreatedAt(pi: PaymentIntent): int {
    pi.createdAt
  }

  /** Rows saved in time order. */
  predicate Chronological(t: Table) {
    Ascending(t, CreatedAt)
  }

  /** `findById` */
  function FindById(t: Table, id: Uuid): (r: Option<PaymentIntent>)
    ensures r.Some? ==> r.value in t && r.value.id == id
    ensures r.None? <==> forall k :: 0 <= k < |t| ==> t[k].id != id
  {
    if t == [] then None
    else if t[0].id == id then Some(t[0])
    else FindById(t[1..], id)
  }

  /** With unique ids the lookup finds the one row with that id. */
  lemma {:induction false} FindByIdUnique(t: Table, id: Uuid, k: int)
    requires UniqueIds(t)
    requires 0 <= k < |t| && t[k].id == id
    ensures FindById(t, id) == Some(t[k])
  {
    if k > 0 {
      assert t[0].id != id;
      assert UniqueIds(t[1..]) by {
        forall i, j | 0 <= i < j < |t[1..]| ensures t[1..][i].id != t[1..][j].id {
          assert t[1..][i] == t[i + 1] && t[1..][j] == t[j + 1];
        }
      }
      assert t[1..][k - 1] == t[k];
      FindByIdUnique(t[1..], id, k - 1);
    }
  }

  /** `findByIdAndMerchantId`: the row with that id, only if it belongs to the merchant. */
  function FindByIdAndMerchantId(t: Table, id: Uuid, merchantId: Uuid): (r: Option<PaymentIntent>)
    ensures r.Some? ==> r.value in t && r.value.id == id && r.value.merchantId == merchantId
  {
    match FindById(t, id)
    case Some(pi) => if pi.merchantId == merchantId then Some(pi) else None
    case None => None
  }

  /** The ownership lookup finds a row exactly when one has both the id and the merchant. */
  lemma OwnedLookup(t: Table, id: Uuid, merchantId: Uuid)
    requires UniqueIds(t)
    ensures FindByIdAndMerchantId(t, id, merchantId).None?
      <==> forall k :: 0 <= k < |t| ==> !(t[k].id == id && t[k].merchantId == merchantId)
  {
    if FindByIdAndMerchantId(t, id, merchantId).None? {
      forall k | 0 <= k < |t| && t[k].id == id ensures t[k].merchantId != merchantId {
        FindByIdUnique(t, id, k);
      }
    }
  }

  /** `save`: replace the row with the same id where it stands, or append. */
  function Saved(t: Table, pi: PaymentIntent): (r: Table)
    ensures |r| == |t| || r == t + [pi]
  {
    if t == [] then [pi]
    else if t[0].id == pi.id then [pi] + t[1..]
    else [t[0]] + Saved(t[1..], pi)
  }

  /** Saving a new id appends it. */
  lemma {:induction false} SaveNew(t: Table, pi: PaymentIntent)
    requires FindById(t, pi.id).None?
    ensures Saved(t, pi) == t + [pi]
  {
    if t != [] {
      assert t[0].id != pi.id;
      SaveNew(t[1..], pi);
      assert [t[0]] + (t[1..] + [pi]) == t + [pi];
    }
  }

  /** Saving an existing id replaces that row and nothing else. */
  lemma {:induction false} SaveExisting(t: Table, pi: PaymentIntent, k: int)
    requires UniqueIds(t)
    requires 0 <= k < |t| && t[k].id == pi.id
    ensures Saved(t, pi) == t[k := pi]
  {
    if k == 0 {
      assert [pi] + t[1..] == t[0 := pi];
    } else {
      assert t[0].id != pi.id;
      assert UniqueIds(t[1..]) by {
        forall i, j | 0 <= i < j < |t[1..]| ensures t[1..][i].id != t[1..][j].id {
          assert t[1..][i] == t[i + 1] && t[1..][j] == t[j + 1];
        }
      }
      assert t[1..][k - 1] == t[k];
      SaveExisting(t[1..], pi, k - 1);
      assert [t[0]] + t[1..][k - 1 := pi] == t[k := pi];
    }
  }

  lemma {:induction false} FindPastUpdate(t: Table, k: int, pi: PaymentIntent, id: Uuid)
    requires 0 <= k < |t| && t[k].id != id && pi.id != id
    ensures FindById(t[k := pi], id) == FindById(t, id)
  {
    if k > 0 && t[0].id != id {
      assert t[k := pi][1..] == t[1..][k - 1 := pi];
      FindPastUpdate(t[1..], k - 1, pi, id);
    }
  }

  lemma {:induction false} FindPastAppend(t: Table, pi: PaymentIntent, id: Uuid)
    requires pi.id != id
    ensures FindById(t + [pi], id) == FindById(t, id)
  {
    if t != [] && t[0].id != id {
      assert (t + [pi])[1..] == t[1..] + [pi];
      FindPastAppend(t[1..], pi, id);
    } else if t == [] {
      assert [] + [pi] == [pi] && [pi][1..] == [];
    }
  }

  /** After a save the table still has unique ids, the saved row is found
      by its id, and every other id finds what it found before. */
  lemma SaveThenFind(t: Table, pi: PaymentIntent)
    requires UniqueIds(t)
    ensures UniqueIds(Saved(t, pi))
    ensures FindById(Saved(t, pi), pi.id) == Some(pi)
    ensures forall id :: id != pi.id ==> FindById(Saved(t, pi), id) == FindById(t, id)
  {
    if FindById(t, pi.id).None? {
      SaveNew(t, pi);
      var r := t + [pi];
      assert UniqueIds(r);
      FindByIdUnique(r, pi.id, |t|);
      forall id | id != pi.id ensures FindById(r, id) == FindById(t, id) {
        FindPastAppend(t, pi, id);
      }
    } else {
      var k :| 0 <= k < |t| && t[k].id == pi.id;
      SaveExisting(t, pi, k);
      var r := t[k := pi];
      assert UniqueIds(r);
      FindByIdUnique(r, pi.id, k);
      forall id | id != pi.id ensures FindById(r, id) == FindById(t, id) {
        FindPastUpdate(t, k, pi, id);
      }
    }
  }

  /** The `where` clause of `search`: the merchant, and each of status,
      from and to only when given, both bounds inclusive. */
  predicate SearchMatches(pi: PaymentIntent, merchantId: Uuid, status: Option<PaymentStatus>,
                          from: Option<Millis>, to: Option<Millis>) {
    && pi.merchantId == merchantId
    && (status.None? || pi.status == status.value)
    && (from.None? || pi.createdAt >= from.value)
    && (to.None? || pi.createdAt <= to.value)
  }

  function SearchFilter(merchantId: Uuid, status: Option<PaymentStatus>, from: Option<Millis>, to: Option<Millis>)
    : PaymentIntent -> bool
  {
    pi => SearchMatches(pi, merchantId, status, from, to)
  }

  /** `search`: the matching rows, newest first. */
  function Search(t: Table, merchantId: Uuid, status: Option<PaymentStatus>, from: Option<Millis>, to: Option<Millis>)
    : (r: Table)
    ensures forall pi :: pi in r <==> pi in t && SearchMatches(pi, merchantId, status, from, to)
  {
    var keep := SearchFilter(merchantId, status, from, to);
    ReverseMembers(Filter(t, keep));
    Reverse(Filter(t, keep))
  }

  /** On a table saved in time order, `search` returns newest first. */
  lemma SearchNewestFirst(t: Table, merchantId: Uuid, status: Option<PaymentStatus>, from: Option<Millis>, to: Option<Millis>)
    requires Chronological(t)
    ensures Descending(Search(t, merchantId, status, from, to), CreatedAt)
  {
    FilteredNewestFirst(t, SearchFilter(merchantId, status, from, to), CreatedAt);
  }

  /** `countByRootPaymentIntentId` */
  function CountByRoot(t: Table, root: Uuid): (n: nat)
    ensures n <= |t|
    ensures n == 0 <==> forall k :: 0 <= k < |t| ==> t[k].rootPaymentIntentId != Some(root)
  {
    if t == [] then 0
    else (if t[0].rootPaymentIntentId == Some(root) then 1 else 0) + CountByRoot(t[1..], root)
  }

  /** The count grows by one when a row with that root is added. */
  lemma {:induction false} CountByRootAppend(t: Table, pi: PaymentIntent, root: Uuid)
    ensures CountByRoot(t + [pi], root) == CountByRoot(t, root) + (if pi.rootPaymentIntentId == Some(root) then 1 else 0)
  {
    if t != [] {
      assert (t + [pi])[0] == t[0] && (t + [pi])[1..] == t[1..] + [pi];
      CountByRootAppend(t[1..], pi, root);
    } else {
      assert [] + [pi] == [pi] && [pi][1..] == [];
    }
  }

  /** The `where` clause of `findStripeByProviderRef`. */
  predicate StripeRef(pi: PaymentIntent, providerRef: string) {
    pi.providerRef == Some(providerRef) && pi.provider == STRIPE
  }

  function StripeRefFilter(providerRef: string): PaymentIntent -> bool {
    pi => StripeRef(pi, providerRef)
  }

  /** `findStripeByProviderRef`: an `Optional` result, which Spring Data
      refuses with an exception when more than one row matches. */
  function FindStripeByProviderRef(t: Table, providerRef: string): (r: Result<Option<PaymentIntent>, Failure>)
    ensures r.Ok? && r.value.Some? ==> r.value.value in t && StripeRef(r.value.value, providerRef)
    ensures r == Ok(None) <==> forall k :: 0 <= k < |t| ==> !StripeRef(t[k], providerRef)
  {
    var m := Filter(t, StripeRefFilter(providerRef));
    if |m| == 0 then
      assert forall k :: 0 <= k < |t| ==> t[k] !in m;
      Ok(None)
    else if |m| == 1 then
      assert m[0] in m;
      Ok(Some(m[0]))
    else
      assert m[0] in m;
      Err(Unchecked("IncorrectResultSizeDataAccessException"))
  }

  /** The table the services share. */
  class IntentStore {
    var table: Table

    ghost predicate Valid()
      reads this
    {
      UniqueIds(table)
    }

    constructor ()
      ensures Valid() && table == []
    {
      table := [];
    }

    /** `paymentIntentRepository.save` */
    method Save(pi: PaymentIntent)
      requires Valid()
      modifies this
      ensures Valid()
      ensures table == Saved(old(table), pi)
      ensures FindById(table, pi.id) == Some(pi)
      ensures forall id :: id != pi.id ==> FindById(table, id) == FindById(old(table), id)
    {
      SaveThenFind(table, pi);
      table := Saved(table, pi);
    }
  }
}
