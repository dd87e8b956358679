/** The medicine routes (routes/medicine.js) as operations on an in-memory
    store: the Medicine collection as a sequence in insertion order, the
    InventoryLog collection as an append-only sequence, and the ids the store
    hands out. Every handler is scoped to the authenticated caller. */
module Inventory {
  import opened Records

  /** The keys a PATCH body may carry. */
  const AllowedUpdates: set<string> :=
    {"name", "description", "quantity", "expiryDate", "price", "category"}

  /** `updates.every(update => allowedUpdates.includes(update))`. */
  predicate IsValidOperation(body: map<string, Value>)
  {
    forall key | key in body :: key in AllowedUpdates
  }

  /** The owner, the dedupe stamp and the fields outside the whitelist cannot be
      changed through PATCH: a body naming any of them is refused. */
  lemma ProtectedFieldsRejected(body: map<string, Value>)
    requires "user" in body || "lastAlertSent" in body || "manufacturer" in body || "_id" in body
    ensures !IsValidOperation(body)
  {
  }

  // ---------------------------------------------------------------------------
  // Quantity changes and their log entries

  /** What a PATCH logs when the quantity moves: the direction and the amount. */
  datatype StockChange = StockChange(action: Action, amount: int)

  function QuantityLog(oldQty: int, newQty: int): (r: Option<StockChange>)
    ensures r.None? <==> oldQty == newQty
    ensures r.Some? ==> r.value.amount > 0
    ensures r.Some? ==> (r.value.action == StockAdded <==> newQty > oldQty)
    ensures r.Some? ==> (r.value.action == StockUsed <==> newQty < oldQty)
  {
    if newQty == oldQty then None
    else
      var delta := newQty - oldQty;
      Some(StockChange(if delta > 0 then StockAdded else StockUsed, if delta < 0 then -delta else delta))
  }

  /** Reading a stock log entry back: the quantity it leads to. */
  function Replay(quantity: int, change: StockChange): int
  {
    match change.action
    case StockAdded => quantity + change.amount
    case StockUsed => quantity - change.amount
    case _ => quantity
  }

  /** The log entry is faithful: replaying it on the old quantity gives the new one,
      so the log alone reconstructs every quantity change. */
  lemma QuantityLogReplays(oldQty: int, newQty: int)
    ensures QuantityLog(oldQty, newQty).Some? ==> Replay(oldQty, QuantityLog(oldQty, newQty).value) == newQty
    ensures QuantityLog(oldQty, newQty).None? ==> oldQty == newQty
  {
  }

  /** The entries PATCH appends for the stored medicine `m`: one stock entry when
      the body carries a numeric quantity different from the stored one, none otherwise. */
  function PatchLog(m: Medicine, body: map<string, Value>, caller: UserId, now: Time): (r: seq<LogEntry>)
    ensures |r| <= 1
    ensures |r| == 1 <==> "quantity" in body && body["quantity"].Number? && body["quantity"].n != m.quantity
    ensures |r| == 1 ==> r[0].medicine == m.id && r[0].user == caller && r[0].medicineName == m.name && r[0].timestamp == now
    ensures |r| == 1 ==> r[0].quantityChanged > 0
    ensures |r| == 1 ==> Replay(m.quantity, StockChange(r[0].action, r[0].quantityChanged)) == body["quantity"].n
  {
    if "quantity" in body && body["quantity"].Number? then
      match QuantityLog(m.quantity, body["quantity"].n)
      case None => []
      case Some(c) => [LogEntry(c.action, m.name, m.id, c.amount, caller, now)]
    else []
  }

  // ---------------------------------------------------------------------------
  // Field assignment

  /** Whether assigning `v` to the path `key` survives Mongoose's cast and the
      schema's `required` validators. `category` is not a schema path, so strict
      mode drops it and nothing can fail. */
  predicate FieldCasts(key: string, v: Value)
  {
    if key == "name" then v.Text? && v.s != ""
    else if key == "description" then v.Text?
    else if key == "quantity" || key == "price" || key == "expiryDate" then v.Number?
    else true
  }

  predicate CastsCleanly(body: map<string, Value>)
  {
    forall key | key in body :: FieldCasts(key, body[key])
  }

  /** `medicine[key] = value` for one key. */
  function SetField(m: Medicine, key: string, v: Value): Medicine
  {
    if key == "name" && v.Text? then m.(name := v.s)
    else if key == "description" && v.Text? then m.(description := v.s)
    else if key == "quantity" && v.Number? then m.(quantity := v.n)
    else if key == "price" && v.Number? then m.(price := v.n)
    else if key == "expiryDate" && v.Number? then m.(expiryDate := v.n)
    else m
  }

  function TextField(body: map<string, Value>, key: string, current: string): string
  {
    if key in body && body[key].Text? then body[key].s else current
  }

  function NumberField(body: map<string, Value>, key: string, current: int): int
  {
    if key in body && body[key].Number? then body[key].n else current
  }

  /** The medicine after every key of `body` has been assigned, field by field. */
  function Patched(m: Medicine, body: map<string, Value>): Medicine
  {
    m.(name := TextField(body, "name", m.name),
       description := TextField(body, "description", m.description),
       quantity := NumberField(body, "quantity", m.quantity),
       price := NumberField(body, "price", m.price),
       expiryDate := NumberField(body, "expiryDate", m.expiryDate))
  }

  /** After a clean PATCH every supplied field equals the body's value, and the
      identity, the owner, the manufacturer and the dedupe stamp are untouched. */
  lemma PatchedFields(m: Medicine, body: map<string, Value>)
    requires CastsCleanly(body)
    ensures var p := Patched(m, body);
      && ("name" in body ==> p.name == body["name"].s)
      && ("description" in body ==> p.description == body["description"].s)
      && ("quantity" in body ==> p.quantity == body["quantity"].n)
      && ("price" in body ==> p.price == body["price"].n)
      && ("expiryDate" in body ==> p.expiryDate == body["expiryDate"].n)
      && ("name" !in body ==> p.name == m.name)
      && ("description" !in body ==> p.description == m.description)
      && ("quantity" !in body ==> p.quantity == m.quantity)
      && ("price" !in body ==> p.price == m.price)
      && ("expiryDate" !in body ==> p.expiryDate == m.expiryDate)
      && p.id == m.id && p.user == m.user && p.manufacturer == m.manufacturer
      && p.lastAlertSent == m.lastAlertSent
  {
    assert "name" in body ==> FieldCasts("name", body["name"]);
    assert "description" in body ==> FieldCasts("description", body["description"]);
    assert "quantity" in body ==> FieldCasts("quantity", body["quantity"]);
    assert "price" in body ==> FieldCasts("price", body["price"]);
    assert "expiryDate" in body ==> FieldCasts("expiryDate", body["expiryDate"]);
  }

  function Restrict(body: map<string, Value>, keys: set<string>): map<string, Value>
  {
    map key | key in body && key in keys :: body[key]
  }

  /** Assigning one more key extends the field-by-field result. */
  lemma SetFieldStep(m: Medicine, body: map<string, Value>, done: set<string>, key: string)
    requires key in body && key !in done
    ensures Patched(m, Restrict(body, done + {key}))
         == SetField(Patched(m, Restrict(body, done)), key, body[key])
  {
  }

  // ---------------------------------------------------------------------------
  // Lookup, listing and creation

  /** `findOne({ _id: id, user: caller })`: the position of the caller's medicine with that id. */
  function FindOwned(meds: seq<Medicine>, id: MedId, caller: UserId): (r: Option<nat>)
    ensures r.Some? ==> r.value < |meds| && meds[r.value].id == id && meds[r.value].user == caller
    ensures r.None? <==> forall i :: 0 <= i < |meds| ==> !(meds[i].id == id && meds[i].user == caller)
  {
    if meds == [] then None
    else if meds[0].id == id && meds[0].user == caller then Some(0)
    else match FindOwned(meds[1..], id, caller)
      case None => None
      case Some(k) => Some(k + 1)
  }

  /** `find({ user: caller })`: the caller's medicines in store order. */
  function Owned(meds: seq<Medicine>, caller: UserId): (r: seq<Medicine>)
    ensures forall m :: m in r <==> m in meds && m.user == caller
  {
    if meds == [] then []
    else (if meds[0].user == caller then [meds[0]] else []) + Owned(meds[1..], caller)
  }

  predicate SortedByExpiry(s: seq<Medicine>)
  {
    forall i, j :: 0 <= i < j < |s| ==> s[i].expiryDate <= s[j].expiryDate
  }

  function InsertByExpiry(m: Medicine, s: seq<Medicine>): (r: seq<Medicine>)
    requires SortedByExpiry(s)
    ensures multiset(r) == multiset(s) + multiset{m}
    ensures SortedByExpiry(r)
  {
    if s == [] || m.expiryDate <= s[0].expiryDate then
      SortedCons(m, s);
      [m] + s
    else
      var rest := InsertByExpiry(m, s[1..]);
      assert s == [s[0]] + s[1..];
      forall x | x in rest ensures s[0].expiryDate <= x.expiryDate {
        assert x in multiset(rest);
        if x != m {
          assert x in multiset(s[1..]);
        }
      }
      SortedCons(s[0], rest);
      [s[0]] + rest
  }

  lemma SortedCons(m: Medicine, s: seq<Medicine>)
    requires SortedByExpiry(s)
    requires forall x :: x in s ==> m.expiryDate <= x.expiryDate
    ensures SortedByExpiry([m] + s)
  {
    var r := [m] + s;
    forall i, j | 0 <= i < j < |r| ensures r[i].expiryDate <= r[j].expiryDate {
      if i > 0 {
        assert r[i] == s[i - 1] && r[j] == s[j - 1];
      } else {
        assert r[j] in s;
      }
    }
  }

  /** `.sort({ expiryDate: 1 })`. */
  function SortByExpiry(s: seq<Medicine>): (r: seq<Medicine>)
    ensures SortedByExpiry(r) && multiset(r) == multiset(s)
  {
    if s == [] then []
    else
      assert s == [s[0]] + s[1..];
      InsertByExpiry(s[0], SortByExpiry(s[1..]))
  }

  /** The body of a create request, as far as the schema keeps it: absent keys
      are None, and `user` is whatever the client sent. */
  datatype NewMedicine = NewMedicine(
    name: Option<string>,
    description: Option<string>,
    quantity: Option<int>,
    price: Option<int>,
    expiryDate: Option<Time>,
    manufacturer: Option<string>,
    lastAlertSent: Option<Time>,
    user: Option<UserId>)

  function OrElse<T>(o: Option<T>, default: T): T
  {
    if o.Some? then o.value else default
  }

  /** `new Medicine({ ...req.body, user: req.user._id })` followed by the schema's
      validation: None when a required path (name, quantity, expiryDate) is missing. */
  function Build(id: MedId, caller: UserId, body: NewMedicine): (r: Option<Medicine>)
    ensures r.Some? <==> body.name.Some? && body.name.value != "" && body.quantity.Some? && body.expiryDate.Some?
    ensures r.Some? ==> r.value.user == caller && r.value.id == id
    ensures r.Some? ==> r.value.name == body.name.value && r.value.quantity == body.quantity.value
    ensures r.Some? ==> r.value.expiryDate == body.expiryDate.value && r.value.lastAlertSent == body.lastAlertSent
    ensures r.Some? && body.description.Some? ==> r.value.description == body.description.value
    ensures r.Some? && body.price.Some? ==> r.value.price == body.price.value
    ensures r.Some? && body.manufacturer.Some? ==> r.value.manufacturer == body.manufacturer.value
    ensures r.Some? && body.description.None? ==> r.value.description == ""
    ensures r.Some? && body.price.None? ==> r.value.price == 0
    ensures r.Some? && body.manufacturer.None? ==> r.value.manufacturer == ""
  {
    if body.name.Some? && body.name.value != "" && body.quantity.Some? && body.expiryDate.Some? then
      Some(Medicine(id, body.name.value, OrElse(body.description, ""), body.quantity.value,
                    OrElse(body.price, 0), body.expiryDate.value, OrElse(body.manufacturer, ""),
                    caller, body.lastAlertSent))
    else None
  }

  /** The store with position `i` removed. */
  function Without(meds: seq<Medicine>, i: nat): (r: seq<Medicine>)
    requires i < |meds|
  {
    meds[..i] + meds[i + 1..]
  }

  /** Deleting position `i` drops exactly that medicine: every other one stays,
      and with unique ids no medicine with the deleted id is left. */
  lemma WithoutRemovesOnlyTarget(meds: seq<Medicine>, i: nat)
    requires i < |meds| && UniqueIds(meds)
    ensures multiset(Without(meds, i)) + multiset{meds[i]} == multiset(meds)
    ensures forall m :: m in Without(meds, i) ==> m.id != meds[i].id
    ensures forall j :: 0 <= j < |meds| && j != i ==> meds[j] in Without(meds, i)
    ensures UniqueIds(Without(meds, i))
  {
    assert meds == meds[..i] + [meds[i]] + meds[i + 1..];
    var w := Without(meds, i);
    forall j | 0 <= j < |meds| && j != i ensures meds[j] in w {
      if j < i { assert w[j] == meds[j]; } else { assert w[j - 1] == meds[j]; }
    }
    WithoutIds(meds, i);
  }

  lemma WithoutIds(meds: seq<Medicine>, i: nat)
    requires i < |meds| && UniqueIds(meds)
    ensures forall m :: m in Without(meds, i) ==> m.id != meds[i].id
    ensures UniqueIds(Without(meds, i))
  {
    var w := Without(meds, i);
    assert forall k :: 0 <= k < |w| ==> w[k] == meds[if k < i then k else k + 1];
    forall m | m in w ensures m.id != meds[i].id {
      var k :| 0 <= k < |w| && w[k] == m;
    }
  }

  /** `updates.forEach(update => medicine[update] = req.body[update])`, one key
      at a time in no particular order, noting whether every value casts. */
  method ApplyFields(m: Medicine, body: map<string, Value>) returns (med: Medicine, castOk: bool)
    ensures med == Patched(m, body)
    ensures castOk <==> CastsCleanly(body)
  {
    med := m;
    castOk := true;
    var remaining := body.Keys;
    while remaining != {}
      invariant remaining <= body.Keys
      invariant med == Patched(m, Restrict(body, body.Keys - remaining))
      invariant castOk <==> forall key :: key in body && key !in remaining ==> FieldCasts(key, body[key])
      decreases remaining
    {
      var key :| key in remaining;
      SetFieldStep(m, body, body.Keys - remaining, key);
      assert body.Keys - remaining + {key} == body.Keys - (remaining - {key});
      med := SetField(med, key, body[key]);
      castOk := castOk && FieldCasts(key, body[key]);
      remaining := remaining - {key};
    }
    assert Restrict(body, body.Keys) == body;
  }

  // ---------------------------------------------------------------------------
  // The store and its handlers

  class Store {
    var meds: seq<Medicine>
    var logs: seq<LogEntry>
    var nextId: MedId

    ghost predicate Valid()
      reads this
    {
      UniqueIds(meds) && forall i :: 0 <= i < |meds| ==> meds[i].id < nextId
    }

    constructor ()
      ensures Valid() && meds == [] && logs == []
    {
      meds, logs, nextId := [], [], 0;
    }

    /** POST `/`: the caller becomes the owner whatever the body says, and one
        "Added" entry carrying the initial quantity is appended. */
    method Create(caller: UserId, body: NewMedicine, now: Time) returns (r: Result<Medicine>)
      requires Valid()
      modifies this
      ensures Valid()
      ensures Build(old(nextId), caller, body).None? ==>
        r == Err(500) && meds == old(meds) && logs == old(logs)
      ensures Build(old(nextId), caller, body).Some? ==>
        var m := Build(old(nextId), caller, body).value;
        && r == Ok(m) && m.user == caller
        && meds == old(meds) + [m]
        && logs == old(logs) + [LogEntry(Added, m.name, m.id, m.quantity, caller, now)]
    {
      var built := Build(nextId, caller, body);
      if built.None? {
        return Err(500);
      }
      var m := built.value;
      meds := meds + [m];
      nextId := nextId + 1;
      logs := logs + [LogEntry(Added, m.name, m.id, m.quantity, caller, now)];
      r := Ok(m);
    }

    /** GET `/`: exactly the caller's medicines, by ascending expiry date. */
    function List(caller: UserId): (r: seq<Medicine>)
      reads this
      ensures SortedByExpiry(r)
      ensures multiset(r) == multiset(Owned(meds, caller))
      ensures forall m :: m in r <==> m in meds && m.user == caller
    {
      var owned := Owned(meds, caller);
      var r := SortByExpiry(owned);
      assert forall m :: m in r <==> m in multiset(r);
      assert forall m :: m in owned <==> m in multiset(owned);
      r
    }

    /** GET `/:id`: the caller's medicine with that id, or 404; another user's
        medicine is not found. */
    function Get(caller: UserId, id: MedId): (r: Result<Medicine>)
      reads this
      ensures r.Ok? <==> exists i :: 0 <= i < |meds| && meds[i].id == id && meds[i].user == caller
      ensures r.Ok? ==> r.value in meds && r.value.id == id && r.value.user == caller
      ensures r.Err? ==> r.status == 404
    {
      match FindOwned(meds, id, caller)
      case None => Err(404)
      case Some(i) => Ok(meds[i])
    }

    /** PATCH `/:id`. */
    method Patch(caller: UserId, id: MedId, body: map<string, Value>, now: Time) returns (r: Result<Medicine>)
      requires Valid()
      modifies this`meds, this`logs
      ensures Valid()
      ensures !IsValidOperation(body) ==> r == Err(400) && meds == old(meds) && logs == old(logs)
      ensures IsValidOperation(body) && FindOwned(old(meds), id, caller).None? ==>
        r == Err(404) && meds == old(meds) && logs == old(logs)
      ensures IsValidOperation(body) && FindOwned(old(meds), id, caller).Some? ==>
        var i := FindOwned(old(meds), id, caller).value;
        var m := old(meds)[i];
        && logs == old(logs) + PatchLog(m, body, caller, now)
        && (CastsCleanly(body) ==> r == Ok(Patched(m, body)) && meds == old(meds)[i := Patched(m, body)])
        && (!CastsCleanly(body) ==> r == Err(400) && meds == old(meds))
    {
      if !IsValidOperation(body) {
        return Err(400);
      }
      var found := FindOwned(meds, id, caller);
      if found.None? {
        return Err(404);
      }
      var i := found.value;
      var m := meds[i];
      if "quantity" in body && body["quantity"].Number? && body["quantity"].n != m.quantity {
        var change := QuantityLog(m.quantity, body["quantity"].n).value;
        logs := logs + [LogEntry(change.action, m.name, m.id, change.amount, caller, now)];
      }
      var med, castOk := ApplyFields(m, body);
      if !castOk {
        return Err(400);
      }
      meds := meds[i := med];
      r := Ok(med);
    }

    /** DELETE `/:id`: only the caller's medicine with that id goes, and one
        "Deleted" entry with quantity 0 is appended; otherwise 404 and nothing changes. */
    method Delete(caller: UserId, id: MedId, now: Time) returns (r: Result<Medicine>)
      requires Valid()
      modifies this`meds, this`logs
      ensures Valid()
      ensures FindOwned(old(meds), id, caller).None? ==>
        r == Err(404) && meds == old(meds) && logs == old(logs)
      ensures FindOwned(old(meds), id, caller).Some? ==>
        var i := FindOwned(old(meds), id, caller).value;
        var m := old(meds)[i];
        && r == Ok(m)
        && meds == Without(old(meds), i)
        && logs == old(logs) + [LogEntry(Deleted, m.name, m.id, 0, caller, now)]
    {
      var found := FindOwned(meds, id, caller);
      if found.None? {
        return Err(404);
      }
      var i := found.value;
      var m := meds[i];
      WithoutRemovesOnlyTarget(meds, i);
      meds := Without(meds, i);
      logs := logs + [LogEntry(Deleted, m.name, m.id, 0, caller, now)];
      r := Ok(m);
    }

    /** `med.lastAlertSent = today; await med.save()` for the medicine at position `i`. */
    method SaveAlertStamp(i: nat, today: Time)
      requires Valid() && i < |meds|
      modifies this`meds
      ensures Valid()
      ensures meds == old(meds)[i := old(meds)[i].(lastAlertSent := Some(today))]
    {
      meds := meds[i := meds[i].(lastAlertSent := Some(today))];
    }
  }
}
