/** The user-record update of the user service
    (`services/database/models/user/crud.py`): `update_user` writes the
    fields an update sets to a non-`None` value onto the stored record, stamps
    `updated_at` and commits; `update_user_last_login_at` wraps it and turns
    every failure into `None`.

    A record is a dictionary from attribute name to value; an update is the
    list of (field, value) pairs of `model_dump(exclude_unset=True)`, in
    order. The database commit and the clock are parameters. */
module UserCrud {
  import opened Common

  /** The fields an update sets, with their values (`Null` for an explicit
      `None`), in dictionary order. */
  type Update = seq<(string, Value)>

  /** A dictionary has each key once. */
  predicate DistinctKeys(u: Update)
  {
    forall i, j :: 0 <= i < j < |u| ==> u[i].0 != u[j].0
  }

  datatype HttpError = HttpError(status: nat, detail: string)

  /** How `db.commit()` ended. */
  datatype CommitOutcome = Committed | IntegrityError(message: string)

  const UpdatedAt := "updated_at"
  const LastLoginAt := "last_login_at"

  /** A stored user; `attrs` holds its attributes. */
  class User {
    var attrs: map<string, Value>

    constructor (attrs: map<string, Value>)
      ensures this.attrs == attrs
    {
      this.attrs := attrs;
    }
  }

  /** One pair of the update is written when the record has the attribute
      and the value is not `None`. */
  predicate Writable(attrs: map<string, Value>, p: (string, Value))
  {
    p.0 in attrs && p.1 != Null
  }

  /** Whether the loop writes anything (the final `changed` flag). */
  predicate Writes(attrs: map<string, Value>, u: Update)
  {
    exists k :: 0 <= k < |u| && Writable(attrs, u[k])
  }

  /** The record after the writes of the pairs in `u`, one after the other. */
  function Merge(attrs: map<string, Value>, u: Update): map<string, Value>
    decreases |u|
  {
    if u == [] then attrs
    else
      var prior := Merge(attrs, u[..|u| - 1]);
      var p := u[|u| - 1];
      if p.0 in prior && p.1 != Null then prior[p.0 := p.1] else prior
  }

  /** The value the update gives `key`, if it names it. */
  function Supplied(u: Update, key: string): Option<Value>
    decreases |u|
  {
    if u == [] then None
    else if u[|u| - 1].0 == key then Some(u[|u| - 1].1)
    else Supplied(u[..|u| - 1], key)
  }

  /** The outcome of `update_user` on a record (or on `None`), as a value:
      404 for a missing record, 304 when nothing is written, 400 when the
      commit hits an integrity error, and otherwise the merged record with
      `updated_at` stamped. */
  function UpdateOutcome(attrs: Option<map<string, Value>>, u: Update, now: Value, commit: CommitOutcome)
    : (r: Result<map<string, Value>, HttpError>)
  {
    match attrs
    case None => Err(HttpError(404, "User not found"))
    case Some(a) =>
      if !Writes(a, u) then Err(HttpError(304, "Nothing to update"))
      else match commit
        case IntegrityError(m) => Err(HttpError(400, m))
        case Committed => Ok(Merge(a, u)[UpdatedAt := now])
  }

  // ---------------------------------------------------------------------------
  // Properties of the merge

  /** The record keeps its set of attributes. */
  lemma {:induction false} MergeKeys(attrs: map<string, Value>, u: Update)
    ensures Merge(attrs, u).Keys == attrs.Keys
    decreases |u|
  {
    if u != [] {
      MergeKeys(attrs, u[..|u| - 1]);
    }
  }

  /** Each attribute ends up with the non-`None` value the update gives it,
      and otherwise keeps its value: fields the update does not set, or sets
      to `None`, are untouched. */
  lemma {:induction false} MergeValues(attrs: map<string, Value>, u: Update, key: string)
    requires DistinctKeys(u)
    requires key in attrs
    ensures key in Merge(attrs, u)
    ensures Merge(attrs, u)[key] == match Supplied(u, key)
                                    case Some(v) => if v != Null then v else attrs[key]
                                    case None => attrs[key]
    decreases |u|
  {
    MergeKeys(attrs, u);
    if u != [] {
      var init := u[..|u| - 1];
      assert DistinctKeys(init);
      MergeValues(attrs, init, key);
      MergeKeys(attrs, init);
      if u[|u| - 1].0 == key {
        SuppliedAbsent(init, key);
      }
    }
  }

  /** A key that only the dropped last pair names is not named earlier. */
  lemma {:induction false} SuppliedAbsent(u: Update, key: string)
    requires forall k :: 0 <= k < |u| ==> u[k].0 != key
    ensures Supplied(u, key) == None
    decreases |u|
  {
    if u != [] {
      SuppliedAbsent(u[..|u| - 1], key);
    }
  }

  /** `None` never overwrites a field. */
  lemma NoneNeverOverwrites(attrs: map<string, Value>, u: Update, key: string)
    requires DistinctKeys(u) && key in attrs
    requires Supplied(u, key) == None || Supplied(u, key) == Some(Null)
    ensures key in Merge(attrs, u) && Merge(attrs, u)[key] == attrs[key]
  {
    MergeValues(attrs, u, key);
  }

  /** A writable pair leaves its mark on the record: the merge holds its
      value. */
  lemma WrittenValue(attrs: map<string, Value>, u: Update, k: nat)
    requires DistinctKeys(u) && k < |u| && Writable(attrs, u[k])
    ensures u[k].0 in Merge(attrs, u) && Merge(attrs, u)[u[k].0] == u[k].1
  {
    SuppliedFind(u, k);
    MergeValues(attrs, u, u[k].0);
  }

  lemma {:induction false} SuppliedFind(u: Update, k: nat)
    requires DistinctKeys(u) && k < |u|
    ensures Supplied(u, u[k].0) == Some(u[k].1)
    decreases |u|
  {
    if k < |u| - 1 {
      SuppliedFind(u[..|u| - 1], k);
    }
  }

  /** An update none of whose pairs is writable leaves the record as it was. */
  lemma {:induction false} MergeNoWrites(attrs: map<string, Value>, u: Update)
    requires !Writes(attrs, u)
    ensures Merge(attrs, u) == attrs
    decreases |u|
  {
    if u != [] {
      var init := u[..|u| - 1];
      MergeNoWrites(attrs, init);
      assert !Writable(attrs, u[|u| - 1]);
    }
  }

  /** `changed` is set by the write itself, not by a difference: writing a
      field's own value counts, so the call still commits. */
  lemma ChangedWithoutDifference()
    ensures var attrs, u := map["username" := Text("ada")], [("username", Text("ada"))];
      Writes(attrs, u) && Merge(attrs, u) == attrs &&
      UpdateOutcome(Some(attrs), u, Int(0), Committed) == Ok(attrs[UpdatedAt := Int(0)])
  {
    var attrs, u := map["username" := Text("ada")], [("username", Text("ada"))];
    assert Writable(attrs, u[0]);
    assert u[..0] == [];
  }

  /** On success `updated_at` is the clock reading, even when the update
      supplied one: the stamp comes after the writes. */
  lemma StampOverridesUpdate(attrs: map<string, Value>, u: Update, now: Value)
    requires UpdateOutcome(Some(attrs), u, now, Committed).Ok?
    ensures UpdateOutcome(Some(attrs), u, now, Committed).value[UpdatedAt] == now
  {
  }

  /** The call fails without a record, and with nothing to write, whatever
      the commit would have done. */
  lemma FailureCases(attrs: map<string, Value>, u: Update, now: Value, commit: CommitOutcome)
    ensures UpdateOutcome(None, u, now, commit) == Err(HttpError(404, "User not found"))
    ensures UpdateOutcome(Some(attrs), u, now, commit).Err? && UpdateOutcome(Some(attrs), u, now, commit).error.status == 304
            <==> !Writes(attrs, u)
    ensures Writes(attrs, u) && commit.IntegrityError? ==>
            UpdateOutcome(Some(attrs), u, now, commit) == Err(HttpError(400, commit.message))
  {
  }

  // ---------------------------------------------------------------------------
  // The operations

  /** `update_user`. The record is changed in place: the fields are written
      before the commit, so they stay written when the commit fails. */
  method UpdateUser(userDb: User?, u: Update, now: Value, commit: CommitOutcome) returns (r: Result<User, HttpError>)
    modifies userDb
    ensures userDb == null ==> r == Err(UpdateOutcome(None, u, now, commit).error)
    ensures userDb != null ==>
      var outcome := UpdateOutcome(Some(old(userDb.attrs)), u, now, commit);
      (r.Ok? <==> outcome.Ok?) && (r.Ok? ==> r.value == userDb && userDb.attrs == outcome.value) &&
      (r.Err? ==> r.error == outcome.error) &&
      userDb.attrs == if Writes(old(userDb.attrs), u) then Merge(old(userDb.attrs), u)[UpdatedAt := now]
                      else old(userDb.attrs)
  {
    if userDb == null {
      return Err(HttpError(404, "User not found"));
    }
    ghost var start := userDb.attrs;
    var changed := false;
    var i := 0;
    while i < |u|
      invariant 0 <= i <= |u|
      invariant userDb.attrs == Merge(start, u[..i])
      invariant changed <==> Writes(start, u[..i])
    {
      var (attr, value) := u[i];
      assert u[..i + 1][..i] == u[..i] && u[..i + 1][i] == u[i];
      MergeKeys(start, u[..i]);
      if attr in userDb.attrs && value != Null {
        userDb.attrs := userDb.attrs[attr := value];
        changed := true;
      }
      assert Writes(start, u[..i + 1]) <==> Writes(start, u[..i]) || Writable(start, u[i]) by {
        if Writes(start, u[..i + 1]) {
          var k :| 0 <= k < i + 1 && Writable(start, u[..i + 1][k]);
          if k < i { assert u[..i + 1][k] == u[..i][k]; }
        }
        if Writes(start, u[..i]) {
          var k :| 0 <= k < i && Writable(start, u[..i][k]);
          assert u[..i + 1][k] == u[..i][k];
        }
      }
      i := i + 1;
    }
    assert u[..i] == u;
    if !changed {
      MergeNoWrites(start, u);
      return Err(HttpError(304, "Nothing to update"));
    }
    userDb.attrs := userDb.attrs[UpdatedAt := now];
    match commit {
      case IntegrityError(m) => return Err(HttpError(400, m));
      case Committed => return Ok(userDb);
    }
  }

  /** `update_user_last_login_at`: an update that sets only `last_login_at`;
      any failure gives `None`. `loginTime` and `now` are the two clock
      readings the call makes. */
  method UpdateLastLoginAt(user: User?, loginTime: Value, now: Value, commit: CommitOutcome) returns (r: Option<User>)
    modifies user
    ensures var outcome := UpdateOutcome(if user == null then None else Some(old(user.attrs)),
                                         [(LastLoginAt, loginTime)], now, commit);
      (r.Some? <==> outcome.Ok?) && (r.Some? ==> r.value == user && user.attrs == outcome.value)
    ensures user != null ==>
      var u := [(LastLoginAt, loginTime)];
      user.attrs == if Writes(old(user.attrs), u) then Merge(old(user.attrs), u)[UpdatedAt := now]
                    else old(user.attrs)
  {
    var updated := UpdateUser(user, [(LastLoginAt, loginTime)], now, commit);
    if updated.Ok? {
      r := Some(updated.value);
    } else {
      r := None;
    }
  }
}
