/**
 * `MemStorage` (server/storage.ts): two in-memory tables, users and staff,
 * each a JavaScript `Map` from id to row that the methods update in place.
 * The methods are `async` in the source but never suspend between reading
 * and writing a table, so each is one atomic step here.
 */
module Storage {
  import opened Wrappers
  import opened Schema
  import opened OrderedMaps

  /**
   * `find` over the users in insertion order: the first one with the given
   * username, or `None` when no user has it.
   */
  function FirstWithUsername(us: seq<User>, name: string): (r: Option<User>)
    ensures r.None? <==> forall i :: 0 <= i < |us| ==> us[i].username != name
    ensures r.Some? ==>
      exists i :: 0 <= i < |us| && us[i] == r.value && r.value.username == name &&
                  forall j :: 0 <= j < i ==> us[j].username != name
  {
    if us == [] then None
    else if us[0].username == name then Some(us[0])
    else
      var r := FirstWithUsername(us[1..], name);
      assert r.Some? ==> exists i :: 0 <= i < |us| && us[i] == r.value && r.value.username == name &&
                                      forall j :: 0 <= j < i ==> us[j].username != name by {
        if r.Some? {
          var i :| 0 <= i < |us[1..]| && us[1..][i] == r.value && r.value.username == name &&
                   forall j :: 0 <= j < i ==> us[1..][j].username != name;
          assert us[i + 1] == r.value;
          assert forall j :: 0 <= j < i + 1 ==> us[j].username != name by {
            forall j | 0 <= j < i + 1 ensures us[j].username != name {
              if j > 0 { assert us[j] == us[1..][j - 1]; }
            }
          }
        }
      }
      r
  }

  /** Adding a staff id and then removing it leaves the table as removing it alone would. */
  lemma AddThenRemove(m: OrderedMap<Staff>, s: Staff)
    requires m.Valid()
    ensures m.Set(s.id, s).Delete(s.id) == m.Delete(s.id)
  {
    if s.id !in m.keys {
      assert Without(m.keys + [s.id], s.id) == m.keys by {
        WithoutAt(m.keys + [s.id], |m.keys|);
        assert (m.keys + [s.id])[..|m.keys|] == m.keys;
      }
      assert m.entries[s.id := s] - {s.id} == m.entries - {s.id};
    } else {
      assert m.entries[s.id := s] - {s.id} == m.entries - {s.id};
    }
  }

  class MemStorage {
    var users: OrderedMap<User>
    var staff: OrderedMap<Staff>

    /** Both tables are well formed and every row is stored under its own id. */
    ghost predicate Valid()
      reads this
    {
      && users.Valid()
      && staff.Valid()
      && (forall k :: k in users.entries ==> users.entries[k].id == k)
      && (forall k :: k in staff.entries ==> staff.entries[k].id == k)
    }

    constructor ()
      ensures Valid()
      ensures users.keys == [] && staff.keys == []
    {
      users := Empty();
      staff := Empty();
    }

    /** `getUser(id)`. */
    method GetUser(id: string) returns (r: Option<User>)
      requires Valid()
      ensures r.Some? <==> id in users.keys
      ensures r.Some? ==> r.value == users.entries[id] && r.value.id == id
    {
      r := users.Get(id);
    }

    /** `getUserByUsername(username)`: the earliest-inserted user with that username. */
    method GetUserByUsername(username: string) returns (r: Option<User>)
      requires Valid()
      ensures r == FirstWithUsername(users.Values(), username)
      ensures r.Some? ==> r.value.username == username && users.Get(r.value.id) == r
      ensures r.None? <==> forall k :: k in users.entries ==> users.entries[k].username != username
    {
      var all := users.Values();
      r := FirstWithUsername(all, username);
      if r.None? {
        forall k | k in users.entries ensures users.entries[k].username != username {
          var i :| 0 <= i < |users.keys| && users.keys[i] == k;
          assert all[i] == users.entries[k];
        }
      } else {
        var i :| 0 <= i < |all| && all[i] == r.value;
        assert users.keys[i] in users.entries;
      }
    }

    /**
     * `createUser(insertUser)`: stores `{...insertUser, id}` under a fresh id.
     * The id comes from `randomUUID()` in the source; here it is a parameter
     * that is not yet in use.
     */
    method CreateUser(insertUser: InsertUser, id: string) returns (user: User)
      requires Valid()
      requires id !in users.keys
      modifies this`users
      ensures Valid()
      ensures user == User(id, insertUser.username, insertUser.password)
      ensures users == old(users).Set(id, user)
      ensures users.keys == old(users.keys) + [id]
      ensures users.Get(id) == Some(user)
      ensures forall k :: k != id ==> users.Get(k) == old(users).Get(k)
      ensures staff == old(staff)
    {
      user := User(id, insertUser.username, insertUser.password);
      users := users.Set(id, user);
    }

    /** `getStaff(id)`. */
    method GetStaff(id: string) returns (r: Option<Staff>)
      requires Valid()
      ensures r.Some? <==> id in staff.keys
      ensures r.Some? ==> r.value == staff.entries[id] && r.value.id == id
    {
      r := staff.Get(id);
    }

    /** `getAllStaff()`: every stored staff row once, in first-insertion order of its id. */
    method GetAllStaff() returns (r: seq<Staff>)
      requires Valid()
      ensures |r| == |staff.keys|
      ensures forall i :: 0 <= i < |r| ==> r[i].id == staff.keys[i] && r[i] == staff.entries[staff.keys[i]]
      ensures forall s: Staff :: s in r <==> staff.Get(s.id) == Some(s)
      ensures forall i, j :: 0 <= i < j < |r| ==> r[i].id != r[j].id
    {
      r := staff.Values();
      forall s: Staff | staff.Get(s.id) == Some(s) ensures s in r {
        var i :| 0 <= i < |staff.keys| && staff.keys[i] == s.id;
        assert r[i] == s;
      }
    }

    /** `addStaff(insertStaff)`: stores the row under its id, replacing any row with that id, and returns it. */
    method AddStaff(insertStaff: Staff) returns (r: Staff)
      requires Valid()
      modifies this`staff
      ensures Valid()
      ensures r == insertStaff
      ensures staff == old(staff).Set(insertStaff.id, insertStaff)
      ensures staff.Get(insertStaff.id) == Some(insertStaff)
      ensures forall k :: k != insertStaff.id ==> staff.Get(k) == old(staff).Get(k)
      ensures insertStaff.id in old(staff.keys) ==> staff.keys == old(staff.keys)
      ensures insertStaff.id !in old(staff.keys) ==> staff.keys == old(staff.keys) + [insertStaff.id]
      ensures users == old(users)
    {
      staff := staff.Set(insertStaff.id, insertStaff);
      r := insertStaff;
    }

    /** `removeStaff(id)`: drops the row with that id; an absent id changes nothing. */
    method RemoveStaff(id: string)
      requires Valid()
      modifies this`staff
      ensures Valid()
      ensures staff == old(staff).Delete(id)
      ensures staff.Get(id) == None
      ensures forall k :: k != id ==> staff.Get(k) == old(staff).Get(k)
      ensures id !in old(staff.keys) ==> staff == old(staff)
      ensures users == old(users)
    {
      staff := staff.Delete(id);
    }
  }
}
