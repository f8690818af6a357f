/**
 * The rate limiter in front of the language-model client: per model, the
 * timestamps of the calls made by everybody, and, for the preview model only,
 * per user. A call is admitted while the recent counts stay under the
 * model's limits.
 */
module RateLimits {
  import opened Wrappers

  /** The model names of gemini_config.py. */
  const Preview: string := "gemini-2.5-flash-preview-05-20"
  const Flash: string := "gemini-2.0-flash"
  const Lite: string := "gemini-2.0-flash-lite"

  const Minute: int := 60
  const Hour: int := 3600
  const Day: int := 86400

  /** Per-user hourly, global per-minute and global per-day limits; None is `float('inf')`. */
  datatype Limits = Limits(userHourly: Option<nat>, globalMinute: Option<nat>, globalDay: Option<nat>)

  /** RATE_LIMITS.get(model). */
  function LimitsFor(model: string): (r: Option<Limits>)
    ensures r.Some? <==> model in {Preview, Flash, Lite}
  {
    if model == Preview then Some(Limits(Some(1), Some(5), Some(100)))
    else if model == Flash then Some(Limits(None, Some(10), Some(1000)))
    else if model == Lite then Some(Limits(None, Some(30), Some(1250)))
    else None
  }

  /** `count >= limit`, where no limit is never reached. */
  predicate Reached(count: int, limit: Option<nat>)
  {
    limit.Some? && count >= limit.value
  }

  /** The global lists per model, and per user the lists per model. */
  datatype Usage = Usage(global: map<string, seq<int>>, users: map<string, map<string, seq<int>>>)

  /** `[t for t in ts if now - t < window]`. */
  function Recent(ts: seq<int>, now: int, window: int): (r: seq<int>)
    ensures |r| <= |ts|
  {
    if ts == [] then []
    else (if now - ts[0] < window then [ts[0]] else []) + Recent(ts[1..], now, window)
  }

  /** Pruning keeps exactly the timestamps inside the window. */
  lemma {:induction false} RecentMembers(ts: seq<int>, now: int, window: int)
    ensures forall t :: t in Recent(ts, now, window) <==> t in ts && now - t < window
  {
    if ts != [] {
      RecentMembers(ts[1..], now, window);
      assert forall t :: t in ts <==> t == ts[0] || t in ts[1..];
    }
  }

  /** Pruning keeps the order of the list: it distributes over concatenation. */
  lemma {:induction false} RecentAppend(a: seq<int>, b: seq<int>, now: int, window: int)
    ensures Recent(a + b, now, window) == Recent(a, now, window) + Recent(b, now, window)
  {
    if a == [] {
      assert a + b == b;
    } else {
      assert (a + b)[0] == a[0];
      assert (a + b)[1..] == a[1..] + b;
      RecentAppend(a[1..], b, now, window);
    }
  }

  /** Pruning to a wide window and then counting in a narrower one counts the same as counting directly. */
  lemma {:induction false} RecentNested(ts: seq<int>, now: int, wide: int, narrow: int)
    requires narrow <= wide
    ensures Recent(Recent(ts, now, wide), now, narrow) == Recent(ts, now, narrow)
  {
    if ts != [] {
      RecentNested(ts[1..], now, wide, narrow);
      var head := if now - ts[0] < wide then [ts[0]] else [];
      RecentAppend(head, Recent(ts[1..], now, wide), now, narrow);
    }
  }

  /** The global calls of a model, `[]` when none are stored. */
  function GlobalCalls(u: Usage, model: string): seq<int>
  {
    if model in u.global then u.global[model] else []
  }

  /** A user's calls of a model, `[]` when none are stored. */
  function UserCalls(u: Usage, user: string, model: string): seq<int>
  {
    if user in u.users && model in u.users[user] then u.users[user][model] else []
  }

  /**
   * record_api_call: `now` is appended to the model's global list, and to
   * the user's list only for the preview model; nothing else changes.
   */
  method RecordApiCall(u: Usage, user: string, model: string, now: int) returns (r: Usage)
    ensures GlobalCalls(r, model) == GlobalCalls(u, model) + [now]
    ensures forall m :: m != model ==> GlobalCalls(r, m) == GlobalCalls(u, m)
    ensures r.global.Keys == u.global.Keys + {model}
    ensures model == Preview ==> UserCalls(r, user, model) == UserCalls(u, user, model) + [now]
    ensures forall n, m :: (n != user || m != model || model != Preview) ==> UserCalls(r, n, m) == UserCalls(u, n, m)
    ensures model != Preview ==> r.users == u.users
  {
    var global := u.global;
    if model !in global {
      global := global[model := []];
    }
    global := global[model := global[model] + [now]];
    r := u.(global := global);
    if model == Preview {
      var users := u.users;
      if user !in users {
        users := users[user := map[]];
      }
      if model !in users[user] {
        users := users[user := users[user][model := []]];
      }
      users := users[user := users[user][model := users[user][model] + [now]]];
      r := r.(users := users);
    }
  }

  /**
   * check_rate_limits: an unknown model is refused with nothing changed.
   * Otherwise the model's global list is pruned to the last 24 hours and,
   * for the preview model, the user's list to the last hour (when stored);
   * the call is then refused when the user's hourly count (preview model
   * only), else the global last-minute count, else the global 24-hour count
   * has reached its limit, and admitted otherwise.
   */
  method CheckRateLimits(u: Usage, user: string, model: string, now: int) returns (allowed: bool, r: Usage)
    ensures LimitsFor(model).None? ==> !allowed && r == u
    ensures LimitsFor(model).Some? ==>
              && r.global == (if model in u.global then u.global[model := Recent(u.global[model], now, Day)] else u.global)
              && r.users == (if model == Preview && user in u.users && model in u.users[user]
                             then u.users[user := u.users[user][model := Recent(u.users[user][model], now, Hour)]]
                             else u.users)
    ensures LimitsFor(model).Some? ==>
              var l := LimitsFor(model).value;
              allowed <==>
                && !(model == Preview && Reached(|Recent(UserCalls(u, user, model), now, Hour)|, l.userHourly))
                && !Reached(|Recent(GlobalCalls(u, model), now, Minute)|, l.globalMinute)
                && !Reached(|Recent(GlobalCalls(u, model), now, Day)|, l.globalDay)
  {
    var limits := LimitsFor(model);
    if limits.None? {
      return false, u;
    }
    var l := limits.value;
    var global := u.global;
    if model in global {
      global := global[model := Recent(global[model], now, Day)];
    }
    r := u.(global := global);
    if model == Preview {
      var users := u.users;
      if user in users && model in users[user] {
        users := users[user := users[user][model := Recent(users[user][model], now, Hour)]];
      }
      r := r.(users := users);
      var userCalls := UserCalls(r, user, model);
      if Reached(|userCalls|, l.userHourly) {
        return false, r;
      }
    }
    var dayCalls := GlobalCalls(r, model);
    RecentNested(GlobalCalls(u, model), now, Day, Minute);
    var minuteCalls := Recent(dayCalls, now, Minute);
    if Reached(|minuteCalls|, l.globalMinute) {
      return false, r;
    }
    if Reached(|dayCalls|, l.globalDay) {
      return false, r;
    }
    allowed := true;
  }

  /** Whether pruning to the window drops any timestamp of the list (its length changes). */
  predicate Shrinks(ts: seq<int>, now: int, cutoff: int)
  {
    |Recent(ts, now, cutoff)| != |ts|
  }

  /** A list that pruning does not shorten is kept whole. */
  lemma {:induction false} RecentFull(ts: seq<int>, now: int, cutoff: int)
    requires !Shrinks(ts, now, cutoff)
    ensures Recent(ts, now, cutoff) == ts
    ensures forall t :: t in ts ==> now - t < cutoff
  {
    if ts != [] {
      assert |Recent(ts[1..], now, cutoff)| <= |ts[1..]|;
      RecentFull(ts[1..], now, cutoff);
    }
  }

  /** The lists of one map after the per-model loop: pruned to the window, empty ones deleted. */
  function Cleaned(lists: map<string, seq<int>>, now: int, cutoff: int): map<string, seq<int>>
  {
    map m | m in lists && Recent(lists[m], now, cutoff) != [] :: Recent(lists[m], now, cutoff)
  }

  /** The `modified` flag of the per-model loop: some list changed length. */
  predicate Changed(lists: map<string, seq<int>>, now: int, cutoff: int)
  {
    exists m :: m in lists && Shrinks(lists[m], now, cutoff)
  }

  /**
   * The per-model loop of cleanup_old_api_usage_data, shared by the global
   * and the per-user maps: every list pruned, the empty ones deleted, and
   * `changed` set exactly when some list changed length. A list that was
   * already empty is deleted without counting as a change.
   */
  method CleanLists(lists: map<string, seq<int>>, now: int, cutoff: int) returns (r: map<string, seq<int>>, changed: bool)
    ensures r == Cleaned(lists, now, cutoff)
    ensures changed == Changed(lists, now, cutoff)
  {
    r := lists;
    changed := false;
    var todo := lists.Keys;
    while todo != {}
      invariant todo <= lists.Keys
      invariant forall m :: m in r <==> m in lists && (m in todo || Recent(lists[m], now, cutoff) != [])
      invariant forall m :: m in r ==> r[m] == if m in todo then lists[m] else Recent(lists[m], now, cutoff)
      invariant changed <==> exists m :: m in lists && m !in todo && Shrinks(lists[m], now, cutoff)
      decreases |todo|
    {
      var m :| m in todo;
      var kept := Recent(lists[m], now, cutoff);
      if kept == [] {
        r := r - {m};
      } else {
        r := r[m := kept];
      }
      if |kept| != |lists[m]| {
        changed := true;
      }
      todo := todo - {m};
    }
  }

  /** The per-user maps after the loop: each cleaned, users left without lists deleted. */
  function CleanedUsers(users: map<string, map<string, seq<int>>>, now: int, cutoff: int): map<string, map<string, seq<int>>>
  {
    map n | n in users && Cleaned(users[n], now, cutoff) != map[] :: Cleaned(users[n], now, cutoff)
  }

  /** The `modified_user` flag for one user: a list changed length, or the user is deleted. */
  predicate UserChanged(models: map<string, seq<int>>, now: int, cutoff: int)
  {
    Changed(models, now, cutoff) || Cleaned(models, now, cutoff) == map[]
  }

  predicate UsersChanged(users: map<string, map<string, seq<int>>>, now: int, cutoff: int)
  {
    exists n :: n in users && UserChanged(users[n], now, cutoff)
  }

  /**
   * The usage record cleanup_old_api_usage_data leaves stored: each of the
   * two maps is saved in its cleaned form only when its `modified` flag is
   * set, and otherwise stays as it was.
   */
  function CleanedUsage(u: Usage, now: int, cutoff: int): Usage
  {
    Usage(if Changed(u.global, now, cutoff) then Cleaned(u.global, now, cutoff) else u.global,
          if UsersChanged(u.users, now, cutoff) then CleanedUsers(u.users, now, cutoff) else u.users)
  }

  /**
   * The per-user loop of cleanup_old_api_usage_data: every user's lists
   * cleaned, users left without lists deleted, and `modified` set exactly
   * when some user's list changed length or some user was deleted.
   */
  method CleanUsers(users: map<string, map<string, seq<int>>>, now: int, cutoff: int)
    returns (r: map<string, map<string, seq<int>>>, modified: bool)
    ensures r == CleanedUsers(users, now, cutoff)
    ensures modified == UsersChanged(users, now, cutoff)
  {
    r := users;
    modified := false;
    var todo := users.Keys;
    while todo != {}
      invariant todo <= users.Keys
      invariant forall n :: n in r <==> n in users && (n in todo || Cleaned(users[n], now, cutoff) != map[])
      invariant forall n :: n in r ==> r[n] == if n in todo then users[n] else Cleaned(users[n], now, cutoff)
      invariant modified <==> exists n :: n in users && n !in todo && UserChanged(users[n], now, cutoff)
      decreases |todo|
    {
      var n :| n in todo;
      var models, changed := CleanLists(users[n], now, cutoff);
      if changed {
        modified := true;
      }
      if models == map[] {
        r := r - {n};
        modified := true;
      } else {
        r := r[n := models];
      }
      todo := todo - {n};
    }
  }

  /** cleanup_old_api_usage_data, `days` defaulting to 30 at its callers. */
  method CleanupOldUsage(u: Usage, now: int, days: int) returns (r: Usage)
    ensures r == CleanedUsage(u, now, days * Day)
  {
    var cutoff := days * Day;
    var global, modifiedGlobal := CleanLists(u.global, now, cutoff);
    if !modifiedGlobal {
      global := u.global;
    }
    var users, modifiedUser := CleanUsers(u.users, now, cutoff);
    if !modifiedUser {
      users := u.users;
    }
    r := Usage(global, users);
  }

  /**
   * What cleanup leaves stored. Every stored list is its window: the
   * timestamps inside the cutoff, in order, and every such timestamp of
   * the old record is still there. When the map is saved (some list was
   * pruned, or for the users some user lost all lists), no list and no user
   * entry is empty; when it is not saved it stays exactly as it was.
   */
  lemma CleanedSpec(u: Usage, now: int, cutoff: int)
    ensures var r := CleanedUsage(u, now, cutoff);
      && r.global.Keys <= u.global.Keys
      && (forall m :: m in r.global ==> r.global[m] == Recent(u.global[m], now, cutoff))
      && (forall m :: m in u.global && Recent(u.global[m], now, cutoff) != [] ==> m in r.global)
      && (Changed(u.global, now, cutoff) ==> forall m :: m in r.global ==> r.global[m] != [])
      && (!Changed(u.global, now, cutoff) ==> r.global == u.global)
    ensures var r := CleanedUsage(u, now, cutoff);
      && r.users.Keys <= u.users.Keys
      && (forall n :: n in r.users ==> r.users[n].Keys <= u.users[n].Keys)
      && (forall n, m :: n in r.users && m in r.users[n] ==> r.users[n][m] == Recent(u.users[n][m], now, cutoff))
      && (forall n, m :: n in u.users && m in u.users[n] && Recent(u.users[n][m], now, cutoff) != [] ==>
            n in r.users && m in r.users[n])
      && (UsersChanged(u.users, now, cutoff) ==>
            forall n :: n in r.users ==> r.users[n] != map[] && forall m :: m in r.users[n] ==> r.users[n][m] != [])
      && (!UsersChanged(u.users, now, cutoff) ==> r.users == u.users)
  {
    if !Changed(u.global, now, cutoff) {
      forall m | m in u.global ensures Recent(u.global[m], now, cutoff) == u.global[m] {
        RecentFull(u.global[m], now, cutoff);
      }
    }
    if !UsersChanged(u.users, now, cutoff) {
      forall n, m | n in u.users && m in u.users[n] ensures Recent(u.users[n][m], now, cutoff) == u.users[n][m] {
        assert !Changed(u.users[n], now, cutoff);
        RecentFull(u.users[n][m], now, cutoff);
      }
    } else {
      forall n, m | n in u.users && m in u.users[n] && Recent(u.users[n][m], now, cutoff) != []
        ensures n in CleanedUsers(u.users, now, cutoff)
      {
        assert m in Cleaned(u.users[n], now, cutoff);
      }
    }
  }

  /**
   * A map the cleanup leaves unsaved (no list changed length) holds only
   * timestamps inside the window, so nothing stale stays on disk.
   */
  lemma UnsavedInWindow(lists: map<string, seq<int>>, now: int, cutoff: int)
    requires !Changed(lists, now, cutoff)
    ensures forall m, t :: m in lists && t in lists[m] ==> now - t < cutoff
  {
    forall m | m in lists ensures forall t :: t in lists[m] ==> now - t < cutoff {
      RecentFull(lists[m], now, cutoff);
    }
  }
}
