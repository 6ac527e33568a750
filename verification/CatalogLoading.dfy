/** Fetching a complete version catalog page by page: the EKS cluster versions of a region
    and the AWS Health service lifecycles. The service is a function from a pagination token
    to its response; the empty token asks for the first page. */
module CatalogLoading {
  import opened Text
  import opened Wrappers
  import opened HealthLifecycle
  import opened HealthLookup

  datatype Response<T> =
    | Page(items: seq<T>, next: string)
    | NoResponse
    | Fault(message: string)

  datatype Failure = ServiceFault(message: string) | EmptyResponse | RepeatedToken | Cancelled

  // ------------------------------------------------------------- token chain

  /** The token of the n-th request, if the chain of pages gets that far. */
  function TokenAt<T>(service: string -> Response<T>, n: nat): Option<string> {
    if n == 0 then Some("")
    else
      match TokenAt(service, n - 1)
      case None => None
      case Some(token) =>
        match service(token)
        case Page(_, next) => if next == "" then None else Some(next)
        case _ => None
  }

  /** The n-th request is answered by the last page. */
  predicate EndsAt<T>(service: string -> Response<T>, n: nat) {
    var token := TokenAt(service, n);
    token.Some? && service(token.value).Page? && service(token.value).next == ""
  }

  ghost predicate Ends<T(!new)>(service: string -> Response<T>) {
    exists n: nat :: EndsAt(service, n)
  }

  function PageAt<T>(service: string -> Response<T>, n: nat): seq<T> {
    match TokenAt(service, n)
    case None => []
    case Some(token) => if service(token).Page? then service(token).items else []
  }

  /** The items of the first n pages, in order. */
  function ItemsBefore<T>(service: string -> Response<T>, n: nat): seq<T> {
    if n == 0 then [] else ItemsBefore(service, n - 1) + PageAt(service, n - 1)
  }

  lemma {:induction false} ChainIsClosed<T>(service: string -> Response<T>, m: nat, n: nat)
    requires m <= n && TokenAt(service, n).Some?
    ensures TokenAt(service, m).Some? && (m < n ==> !EndsAt(service, m))
    decreases n - m
  {
    if m < n {
      ChainIsClosed(service, m + 1, n);
    }
  }

  /** A token seen before is seen again forever. */
  lemma {:induction false} RepeatedTokenNeverEnds<T>(service: string -> Response<T>, m: nat, n: nat, k: nat)
    requires m < n && TokenAt(service, m).Some? && TokenAt(service, m) == TokenAt(service, n)
    ensures !EndsAt(service, k)
    decreases k
  {
    if k < n {
      ChainIsClosed(service, k, n);
    } else {
      ShiftedToken(service, m, n, k - n);
      RepeatedTokenNeverEnds(service, m, n, k - (n - m));
    }
  }

  lemma {:induction false} ShiftedToken<T>(service: string -> Response<T>, m: nat, n: nat, d: nat)
    requires TokenAt(service, m) == TokenAt(service, n)
    ensures TokenAt(service, m + d) == TokenAt(service, n + d)
  {
    if d > 0 {
      ShiftedToken(service, m, n, d - 1);
    }
  }

  /** A page that is missing or faulty ends the chain without a last page. */
  lemma BrokenChainNeverEnds<T>(service: string -> Response<T>, n: nat, k: nat)
    requires TokenAt(service, n).Some? && !service(TokenAt(service, n).value).Page?
    ensures !EndsAt(service, k)
  {
    if k < n {
      ChainIsClosed(service, k, n);
    } else if k > n && EndsAt(service, k) {
      ChainIsClosed(service, n + 1, k);
    }
  }

  lemma LastPageIsUnique<T>(service: string -> Response<T>, m: nat, n: nat)
    requires EndsAt(service, m) && EndsAt(service, n)
    ensures m == n
  {
    if m < n {
      ChainIsClosed(service, m, n);
    } else if n < m {
      ChainIsClosed(service, n, m);
    }
  }

  /** The tokens followed so far are those of the chain, without repetition. */
  ghost predicate Followed<T(!new)>(service: string -> Response<T>, n: nat, token: string, seen: set<string>) {
    && TokenAt(service, n) == Some(token)
    && (forall t :: t in seen ==> exists m :: 0 < m <= n && TokenAt(service, m) == Some(t))
    && (forall m :: 0 < m <= n ==> TokenAt(service, m).Some? && TokenAt(service, m).value in seen)
  }

  lemma FollowStart<T(!new)>(service: string -> Response<T>)
    ensures Followed(service, 0, "", {})
  {
  }

  lemma FollowNext<T(!new)>(service: string -> Response<T>, n: nat, token: string, seen: set<string>)
    requires Followed(service, n, token, seen) && service(token).Page? && service(token).next != ""
    ensures Followed(service, n + 1, service(token).next, seen + {service(token).next})
  {
    var next := service(token).next;
    assert TokenAt(service, n + 1) == Some(next);
    forall t | t in seen
      ensures exists m :: 0 < m <= n + 1 && TokenAt(service, m) == Some(t)
    {
      var m :| 0 < m <= n && TokenAt(service, m) == Some(t);
    }
  }

  lemma StopsBroken<T(!new)>(service: string -> Response<T>, n: nat, token: string, seen: set<string>)
    requires Followed(service, n, token, seen) && !service(token).Page?
    ensures !Ends(service)
  {
    forall k: nat
      ensures !EndsAt(service, k)
    {
      BrokenChainNeverEnds(service, n, k);
    }
  }

  lemma StopsRepeated<T(!new)>(service: string -> Response<T>, n: nat, token: string, seen: set<string>)
    requires Followed(service, n, token, seen) && service(token).Page? && service(token).next != ""
    requires service(token).next in seen
    ensures !Ends(service)
  {
    var m :| 0 < m <= n && TokenAt(service, m) == Some(service(token).next);
    forall k: nat
      ensures !EndsAt(service, k)
    {
      RepeatedTokenNeverEnds(service, m, n + 1, k);
    }
  }

  lemma StopsAtLastPage<T(!new)>(service: string -> Response<T>, n: nat, token: string, seen: set<string>)
    requires Followed(service, n, token, seen) && service(token).Page? && service(token).next == ""
    ensures EndsAt(service, n) && Ends(service)
    ensures forall k: nat :: EndsAt(service, k) ==> k == n
  {
    assert EndsAt(service, n);
    forall k: nat | EndsAt(service, k)
      ensures k == n
    {
      LastPageIsUnique(service, k, n);
    }
  }

  lemma PageExtends<T(!new)>(service: string -> Response<T>, n: nat, token: string, seen: set<string>)
    requires Followed(service, n, token, seen) && service(token).Page?
    ensures ItemsBefore(service, n + 1) == ItemsBefore(service, n) + service(token).items
  {
  }

  lemma Shrinks(tokens: set<string>, seen: set<string>, token: string)
    requires token in tokens && token !in seen
    ensures |tokens - (seen + {token})| < |tokens - seen|
  {
    assert tokens - (seen + {token}) == (tokens - seen) - {token};
  }

  // --------------------------------------------------------------------- EKS

  datatype ClusterVersion = ClusterVersion(version: string, status: string)

  function AddVersion(versions: map<string, ClusterVersion>, v: ClusterVersion): map<string, ClusterVersion> {
    var id := Trim(v.version);
    if id == "" then versions else versions[id := v]
  }

  function IndexVersions(items: seq<ClusterVersion>): map<string, ClusterVersion> {
    if items == [] then map[]
    else AddVersion(IndexVersions(items[..|items| - 1]), items[|items| - 1])
  }

  lemma {:induction false} IndexVersionsSnoc(a: seq<ClusterVersion>, b: seq<ClusterVersion>, i: nat)
    requires i < |b|
    ensures IndexVersions(a + b[..i + 1]) == AddVersion(IndexVersions(a + b[..i]), b[i])
  {
    hide AddVersion;
    var all := a + b[..i + 1];
    assert all[..|all| - 1] == a + b[..i];
  }

  /** The index holds, for each version, the last item on the pages that names it. */
  lemma {:induction false} IndexHoldsLastItem(items: seq<ClusterVersion>, id: string)
    ensures id in IndexVersions(items) <==> id != "" && exists i :: 0 <= i < |items| && Trim(items[i].version) == id
    ensures id in IndexVersions(items) ==>
              exists i :: 0 <= i < |items| && Trim(items[i].version) == id && IndexVersions(items)[id] == items[i]
                          && forall j :: i < j < |items| ==> Trim(items[j].version) != id
  {
    if items != [] {
      var front := items[..|items| - 1];
      var last := |items| - 1;
      IndexHoldsLastItem(front, id);
      if Trim(items[last].version) != id && id in IndexVersions(front) {
        var i :| 0 <= i < |front| && Trim(front[i].version) == id && IndexVersions(front)[id] == front[i]
                 && forall j :: i < j < |front| ==> Trim(front[j].version) != id;
        assert items[i] == front[i];
        assert forall j :: i < j < |items| ==> Trim(items[j].version) != id;
      }
    }
  }

  method AddVersions(versions: map<string, ClusterVersion>, items: seq<ClusterVersion>,
                     ghost before: seq<ClusterVersion>)
    returns (r: map<string, ClusterVersion>)
    requires versions == IndexVersions(before)
    ensures r == IndexVersions(before + items)
  {
    r := versions;
    assert before + items[..0] == before;
    for i := 0 to |items|
      invariant r == IndexVersions(before + items[..i])
    {
      IndexVersionsSnoc(before, items, i);
      var id := Trim(items[i].version);
      if id != "" {
        r := r[id := items[i]];
      }
    }
    assert items[..|items|] == items;
  }

  /** Terminates for any service with finitely many tokens; succeeds exactly if the chain of
      pages ends, and then indexes exactly the pages on it. */
  method LoadEksVersions(service: string -> Response<ClusterVersion>, ghost tokens: set<string>)
    returns (r: Result<map<string, ClusterVersion>, Failure>)
    requires forall t :: service(t).Page? && service(t).next != "" ==> service(t).next in tokens
    ensures r.Ok? <==> Ends(service)
    ensures forall n: nat :: EndsAt(service, n) ==> r == Ok(IndexVersions(ItemsBefore(service, n + 1)))
    ensures r.Err? ==> !r.error.Cancelled?
  {
    hide Followed, TokenAt, EndsAt, ItemsBefore, IndexVersions;
    var versions: map<string, ClusterVersion> := map[];
    var seen: set<string> := {};
    var token := "";
    ghost var n: nat := 0;
    FollowStart(service);
    NoItems(service);
    while true
      invariant Followed(service, n, token, seen) && seen <= tokens
      invariant versions == IndexVersions(ItemsBefore(service, n))
      decreases |tokens - seen|
    {
      var out := service(token);
      if out.Fault? {
        StopsBroken(service, n, token, seen);
        return Err(ServiceFault(out.message));
      }
      if out.NoResponse? {
        StopsBroken(service, n, token, seen);
        return Err(EmptyResponse);
      }
      versions := AddVersions(versions, out.items, ItemsBefore(service, n));
      PageExtends(service, n, token, seen);
      if out.next == "" {
        StopsAtLastPage(service, n, token, seen);
        return Ok(versions);
      }
      if out.next in seen {
        StopsRepeated(service, n, token, seen);
        return Err(RepeatedToken);
      }
      Shrinks(tokens, seen, out.next);
      FollowNext(service, n, token, seen);
      seen := seen + {out.next};
      token := out.next;
      n := n + 1;
    }
  }

  lemma NoItems(service: string -> Response<ClusterVersion>)
    ensures IndexVersions(ItemsBefore(service, 0)) == map[]
  {
  }

  // ------------------------------------------------------------------ Health

  const OPENSEARCH := "opensearch"

  datatype ServiceLifecycle = ServiceLifecycle(service: string, version: string, title: string,
                                               events: seq<LifecycleEvent>)

  function ServiceOf(raw: string): Option<string> {
    var name := Normalize(raw);
    if name == "ELASTICACHE" then Some(ELASTICACHE)
    else if name == "OPENSEARCH" || name == "OPENSEARCH_SERVICE" || name == "ES" then Some(OPENSEARCH)
    else None
  }

  /** The engine prefix of a version, at the first of the separators / _ : that occurs. */
  function SplitEngine(raw: string): (string, string) {
    var slash, underscore, colon := CutAt(raw, '/'), CutAt(raw, '_'), CutAt(raw, ':');
    if slash.found then (slash.before, slash.after)
    else if underscore.found then (underscore.before, underscore.after)
    else if colon.found then (colon.before, colon.after)
    else ("", raw)
  }

  function EngineInTitle(title: string): string {
    var t := ToLower(title);
    if Contains(t, "elasticsearch") then "elasticsearch"
    else if Contains(t, "opensearch") then "opensearch"
    else if Contains(t, "redis") then "redis"
    else if Contains(t, "valkey") then "valkey"
    else if Contains(t, "memcached") then "memcached"
    else ""
  }

  function EngineName(service: string, engine: string): string {
    var e := if engine == "redis-oss" || engine == "redisoss" then "redis" else engine;
    if service == OPENSEARCH && e == "es" then "elasticsearch"
    else if service == OPENSEARCH && e == "os" then "opensearch"
    else e
  }

  predicate Offered(service: string, engine: string) {
    if service == ELASTICACHE then engine in {"redis", "valkey", "memcached"}
      else engine in {"opensearch", "elasticsearch"}
  }

  function HealthEntryKey(entry: ServiceLifecycle): Option<VersionKey> {
    var service := ServiceOf(entry.service);
    if service.None? then None
    else
      var (prefix, rest) := SplitEngine(ToLower(Trim(entry.version)));
      var engine := EngineName(service.value, if prefix == "" then EngineInTitle(entry.title) else prefix);
      var version := Trim(rest);
      if !Offered(service.value, engine) || version == "" then None
      else Some(VersionKey(service.value, engine, version))
  }

  function AddLifecycle(entries: Entries, entry: ServiceLifecycle): Entries {
    match HealthEntryKey(entry)
    case None => entries
    case Some(key) => entries[key := (if key in entries then entries[key] else []) + entry.events]
  }

  function IndexLifecycles(items: seq<ServiceLifecycle>): Entries {
    if items == [] then map[]
    else AddLifecycle(IndexLifecycles(items[..|items| - 1]), items[|items| - 1])
  }

  function EventsFor(items: seq<ServiceLifecycle>, key: VersionKey): seq<LifecycleEvent> {
    if items == [] then []
    else
      var last := items[|items| - 1];
      EventsFor(items[..|items| - 1], key) + if HealthEntryKey(last) == Some(key) then last.events else []
  }

  /** The catalog holds a key exactly if some item carries it, with the events of all such
      items in page order. */
  lemma {:induction false} IndexCollectsEvents(items: seq<ServiceLifecycle>, key: VersionKey)
    ensures key in IndexLifecycles(items) <==> exists i :: 0 <= i < |items| && HealthEntryKey(items[i]) == Some(key)
    ensures key in IndexLifecycles(items) ==> IndexLifecycles(items)[key] == EventsFor(items, key)
    ensures key !in IndexLifecycles(items) ==> EventsFor(items, key) == []
  {
    hide HealthEntryKey;
    if items != [] {
      var front := items[..|items| - 1];
      IndexCollectsEvents(front, key);
      if exists i :: 0 <= i < |front| && HealthEntryKey(front[i]) == Some(key) {
        var i :| 0 <= i < |front| && HealthEntryKey(front[i]) == Some(key);
        assert items[i] == front[i];
      }
      assert HealthEntryKey(items[|items| - 1]) == Some(key) ==> key in IndexLifecycles(items);
    }
  }

  lemma IndexLifecyclesSnoc(a: seq<ServiceLifecycle>, b: seq<ServiceLifecycle>, i: nat)
    requires i < |b|
    ensures IndexLifecycles(a + b[..i + 1]) == AddLifecycle(IndexLifecycles(a + b[..i]), b[i])
  {
    hide AddLifecycle;
    var all := a + b[..i + 1];
    assert all[..|all| - 1] == a + b[..i];
  }

  method AddLifecycles(entries: Entries, items: seq<ServiceLifecycle>, ghost before: seq<ServiceLifecycle>)
    returns (r: Entries)
    requires entries == IndexLifecycles(before)
    ensures r == IndexLifecycles(before + items)
  {
    hide HealthEntryKey, IndexLifecycles;
    r := entries;
    assert before + items[..0] == before;
    for i := 0 to |items|
      invariant r == IndexLifecycles(before + items[..i])
    {
      IndexLifecyclesSnoc(before, items, i);
      var key := HealthEntryKey(items[i]);
      if key.None? {
        continue;
      }
      if key.value !in r {
        r := r[key.value := []];
      }
      r := r[key.value := r[key.value] + items[i].events];
    }
    assert items[..|items|] == items;
  }

  /** As LoadEksVersions, with the context checked before every request: the request after
      cancelAfter pages finds it cancelled. */
  method LoadHealthLifecycles(service: string -> Response<ServiceLifecycle>, cancelAfter: Option<nat>,
                              ghost tokens: set<string>)
    returns (r: Result<Entries, Failure>)
    requires forall t :: service(t).Page? && service(t).next != "" ==> service(t).next in tokens
    ensures r.Ok? ==> Ends(service)
    ensures forall n: nat :: EndsAt(service, n) && (cancelAfter.None? || n < cancelAfter.value) ==>
              r == Ok(IndexLifecycles(ItemsBefore(service, n + 1)))
    ensures forall n: nat :: EndsAt(service, n) && cancelAfter.Some? && cancelAfter.value <= n ==> r == Err(Cancelled)
  {
    hide Followed, TokenAt, EndsAt, ItemsBefore, IndexLifecycles;
    var entries: Entries := map[];
    var seen: set<string> := {};
    var token := "";
    var pages: nat := 0;
    FollowStart(service);
    NoLifecycles(service);
    while true
      invariant Followed(service, pages, token, seen) && seen <= tokens
      invariant entries == IndexLifecycles(ItemsBefore(service, pages))
      invariant cancelAfter.Some? ==> pages <= cancelAfter.value
      invariant forall n: nat :: EndsAt(service, n) ==> pages <= n
      decreases |tokens - seen|
    {
      if cancelAfter == Some(pages) {
        return Err(Cancelled);
      }
      var out := service(token);
      if out.Fault? {
        StopsBroken(service, pages, token, seen);
        return Err(ServiceFault(out.message));
      }
      if out.NoResponse? {
        StopsBroken(service, pages, token, seen);
        return Err(EmptyResponse);
      }
      entries := AddLifecycles(entries, out.items, ItemsBefore(service, pages));
      PageExtends(service, pages, token, seen);
      if out.next == "" {
        StopsAtLastPage(service, pages, token, seen);
        return Ok(entries);
      }
      if out.next in seen {
        StopsRepeated(service, pages, token, seen);
        return Err(RepeatedToken);
      }
      Shrinks(tokens, seen, out.next);
      FollowNext(service, pages, token, seen);
      ContinuesAfter(service, pages, token, seen);
      seen := seen + {out.next};
      token := out.next;
      pages := pages + 1;
    }
  }

  lemma NoLifecycles(service: string -> Response<ServiceLifecycle>)
    ensures IndexLifecycles(ItemsBefore(service, 0)) == map[]
  {
  }

  lemma ContinuesAfter<T(!new)>(service: string -> Response<T>, n: nat, token: string, seen: set<string>)
    requires Followed(service, n, token, seen) && service(token).Page? && service(token).next != ""
    ensures forall k: nat :: EndsAt(service, k) ==> n + 1 <= k
  {
    forall k: nat | EndsAt(service, k)
      ensures n < k
    {
      if k < n {
        ChainIsClosed(service, k, n);
      }
    }
  }
}
