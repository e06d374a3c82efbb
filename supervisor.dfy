/**
 * The supervisor loop of Monitor/options.py: one account object per user on
 * the watch roster. Each pass reads the roster; when it is empty or missing
 * nothing changes; otherwise objects of users no longer listed are dropped,
 * and every listed user without one gets a new object. Objects of users who
 * stay are kept, so their locked profit and hit counter carry over.
 *
 * The roster file is an input (`None` when it holds nothing); the threads
 * that then run every object once are not part of this model.
 */
module Roster {
  import opened Wrappers
  import opened Monitor

  class Supervisor {
    /** `handle_objs`: the account object of each watched user. */
    var handleObjs: map<string, HandleOptions>

    /** Each object belongs to the user it is filed under, and no object is shared. */
    predicate Valid()
      reads this
    {
      && (forall u | u in handleObjs :: handleObjs[u].user == u)
      && (forall u, v | u in handleObjs && v in handleObjs && u != v :: handleObjs[u] != handleObjs[v])
    }

    constructor ()
      ensures handleObjs == map[] && Valid()
    {
      handleObjs := map[];
    }

    /**
     * One pass of the supervisor over the roster read from `watch_sync.yaml`.
     * A roster that is missing or empty (falsy in Python) leaves the objects
     * as they are.
     */
    method Refresh(roster: Option<seq<string>>, config: Config)
      requires Valid()
      modifies this
      ensures Valid()
      ensures roster.None? || roster.value == [] ==> handleObjs == old(handleObjs)
      ensures roster.Some? && roster.value != [] ==>
        handleObjs.Keys == set u | u in roster.value
      ensures forall u | u in handleObjs && u in old(handleObjs) :: handleObjs[u] == old(handleObjs)[u]
      ensures forall u | u in handleObjs && u !in old(handleObjs) ::
        fresh(handleObjs[u]) && handleObjs[u].config == config && handleObjs[u].Initial()
    {
      if roster.None? || roster.value == [] {
        return;
      }
      var watch := roster.value;
      var remove := StaleUsers(watch);
      Drop(remove);
      assert handleObjs.Keys == set u | u in old(handleObjs) && u in watch;
      Enroll(watch, config);
    }

    /** The users filed but no longer on the roster (`remove_users`). */
    method StaleUsers(watch: seq<string>) returns (remove: seq<string>)
      ensures forall u :: u in remove <==> u in handleObjs && u !in watch
    {
      remove := [];
      var keys := handleObjs.Keys;
      while keys != {}
        invariant keys <= handleObjs.Keys
        invariant forall u :: u in remove <==> u in handleObjs && u !in keys && u !in watch
        decreases keys
      {
        var u :| u in keys;
        if u !in watch {
          remove := remove + [u];
        }
        keys := keys - {u};
      }
    }

    /** `del handle_objs[user]` for each user listed. */
    method Drop(remove: seq<string>)
      requires Valid()
      modifies this
      ensures Valid()
      ensures handleObjs.Keys == old(handleObjs).Keys - set u | u in remove
      ensures forall u | u in handleObjs :: handleObjs[u] == old(handleObjs)[u]
    {
      var i := 0;
      while i < |remove|
        invariant 0 <= i <= |remove|
        invariant handleObjs.Keys == old(handleObjs).Keys - set k | 0 <= k < i :: remove[k]
        invariant forall u | u in handleObjs :: handleObjs[u] == old(handleObjs)[u]
      {
        handleObjs := handleObjs - {remove[i]};
        i := i + 1;
      }
      assert (set k | 0 <= k < i :: remove[k]) == set u | u in remove;
    }

    /** A new object for each user on the roster who has none. */
    method Enroll(watch: seq<string>, config: Config)
      requires Valid()
      modifies this
      ensures Valid()
      ensures handleObjs.Keys == old(handleObjs).Keys + set u | u in watch
      ensures forall u | u in old(handleObjs) :: handleObjs[u] == old(handleObjs)[u]
      ensures forall u | u in handleObjs && u !in old(handleObjs) ::
        fresh(handleObjs[u]) && handleObjs[u].config == config && handleObjs[u].Initial()
    {
      var i := 0;
      while i < |watch|
        invariant 0 <= i <= |watch|
        invariant handleObjs.Keys == old(handleObjs).Keys + set k | 0 <= k < i :: watch[k]
        invariant forall u | u in old(handleObjs) :: handleObjs[u] == old(handleObjs)[u]
        invariant forall u | u in handleObjs && u !in old(handleObjs) ::
          fresh(handleObjs[u]) && handleObjs[u].config == config && handleObjs[u].Initial()
        invariant Valid()
      {
        var u := watch[i];
        if u !in handleObjs {
          var h := new HandleOptions(u, config);
          handleObjs := handleObjs[u := h];
        }
        i := i + 1;
      }
      assert (set k | 0 <= k < i :: watch[k]) == set u | u in watch;
    }
  }
}
