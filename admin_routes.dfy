/**
 * The admin API's writes: `PATCH /users/:id/toggle`, which sets one user's active flag, and
 * `PUT /settings`, which updates the listed settings one statement at a time, outside any
 * transaction.
 */
module AdminRoutes {
  import opened Common
  import opened Schema

  /** `PATCH /users/:id/toggle`: one query; the flag is the body's `is_active` (NULL when left out). */
  method ToggleUser(db: Database, id: int, isActive: Option<bool>, fault: Fault) returns (status: Status)
    requires db.Valid()
    modifies db
    ensures db.Valid()
    ensures db.products == old(db.products) && db.movements == old(db.movements)
    ensures db.suppliers == old(db.suppliers) && db.nextSupplierId == old(db.nextSupplierId)
    ensures db.settings == old(db.settings)
    ensures FailsAtQuery(fault, 0) ==> status == ServerError500 && db.users == old(db.users)
    ensures !FailsAtQuery(fault, 0) && id !in old(db.users) ==> status == NotFound404 && db.users == old(db.users)
    ensures !FailsAtQuery(fault, 0) && id in old(db.users) ==>
      status == Ok200 && db.users == old(db.users)[id := old(db.users)[id].(isActive := isActive)]
  {
    if FailsAtQuery(fault, 0) {
      return ServerError500;
    }
    if id !in db.users {
      return NotFound404;
    }
    db.users := db.users[id := db.users[id].(isActive := isActive)];
    status := Ok200;
  }

  /** One entry of the `settings` list in the body of `PUT /settings`. */
  datatype SettingUpdate = SettingUpdate(id: int, value: string)

  /** One `UPDATE ... WHERE id = $2`: a row with that id takes the value; no such row, no change. */
  function ApplySetting(settings: map<int, SettingRow>, u: SettingUpdate, now: int): (r: map<int, SettingRow>)
    ensures r.Keys == settings.Keys
    ensures u.id in settings ==> r == settings[u.id := settings[u.id].(value := u.value, updatedAt := now)]
    ensures u.id !in settings ==> r == settings
  {
    if u.id in settings then settings[u.id := settings[u.id].(value := u.value, updatedAt := now)] else settings
  }

  /** The settings table after the updates in `us` ran in list order: the same rows, the same keys. */
  function ApplySettings(settings: map<int, SettingRow>, us: seq<SettingUpdate>, now: int): (r: map<int, SettingRow>)
    ensures r.Keys == settings.Keys
    ensures forall id :: id in r ==> r[id].key == settings[id].key
  {
    if us == [] then settings
    else ApplySetting(ApplySettings(settings, us[..|us| - 1], now), us[|us| - 1], now)
  }

  /** A setting no update names keeps its row. */
  lemma {:induction false} UnlistedSettingUnchanged(settings: map<int, SettingRow>, us: seq<SettingUpdate>,
                                                    now: int, id: int)
    requires id in settings
    requires forall i :: 0 <= i < |us| ==> us[i].id != id
    ensures ApplySettings(settings, us, now)[id] == settings[id]
  {
    if us != [] {
      UnlistedSettingUnchanged(settings, us[..|us| - 1], now, id);
    }
  }

  /** When several updates name the same existing setting, the last of them decides its value. */
  lemma {:induction false} LastUpdateWins(settings: map<int, SettingRow>, us: seq<SettingUpdate>, now: int, j: int)
    requires 0 <= j < |us| && us[j].id in settings
    requires forall i :: j < i < |us| ==> us[i].id != us[j].id
    ensures ApplySettings(settings, us, now)[us[j].id] == settings[us[j].id].(value := us[j].value, updatedAt := now)
  {
    var init := us[..|us| - 1];
    if j < |us| - 1 {
      assert init[j] == us[j];
      assert forall i :: j < i < |init| ==> init[i] == us[i];
      LastUpdateWins(settings, init, now, j);
    }
  }

  /**
   * `PUT /settings`: query `i` is the update for the `i`-th entry. A failing query stops the loop
   * and answers 500, and the updates before it stay applied. A body without a `settings` list
   * fails before any query.
   */
  method UpdateSettings(db: Database, updates: Option<seq<SettingUpdate>>, now: int, fault: Fault)
    returns (status: Status)
    requires db.Valid()
    modifies db
    ensures db.Valid()
    ensures db.products == old(db.products) && db.movements == old(db.movements)
    ensures db.suppliers == old(db.suppliers) && db.nextSupplierId == old(db.nextSupplierId)
    ensures db.users == old(db.users)
    ensures updates.None? ==> status == ServerError500 && db.settings == old(db.settings)
    ensures updates.Some? && fault.FailsAt? && fault.query < |updates.value| ==>
      status == ServerError500 && db.settings == ApplySettings(old(db.settings), updates.value[..fault.query], now)
    ensures updates.Some? && !(fault.FailsAt? && fault.query < |updates.value|) ==>
      status == Ok200 && db.settings == ApplySettings(old(db.settings), updates.value, now)
  {
    if updates.None? {
      return ServerError500;
    }
    var us := updates.value;
    var i := 0;
    while i < |us|
      invariant 0 <= i <= |us|
      invariant db.settings == ApplySettings(old(db.settings), us[..i], now)
      invariant !(fault.FailsAt? && fault.query < i)
      invariant db.products == old(db.products) && db.movements == old(db.movements)
      invariant db.suppliers == old(db.suppliers) && db.nextSupplierId == old(db.nextSupplierId)
      invariant db.users == old(db.users)
    {
      if FailsAtQuery(fault, i) {
        return ServerError500;
      }
      assert us[..i + 1][..i] == us[..i];
      db.settings := ApplySetting(db.settings, us[i], now);
      i := i + 1;
    }
    assert us[..i] == us;
    status := Ok200;
  }
}
