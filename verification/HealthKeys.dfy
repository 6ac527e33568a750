/** Which catalog key an AWS Health service lifecycle is filed under, told from its three texts: the service, the
    version with its engine prefix, and the title. */
module HealthKeys {
  import opened Text
  import opened Wrappers
  import opened HealthLookup
  import opened HealthMeaning
  import opened CatalogLoading

  /** The text before and after the first occurrence of a separator. */
  predicate IsCut(text: string, sep: char, prefix: string, rest: string) {
    text == prefix + [sep] + rest && sep !in prefix
  }

  /** A version text is cut at its first slash; without one, at the first underscore; without that, at the first
      colon; or else it is all version. */
  predicate Parts(text: string, prefix: string, rest: string) {
    if '/' in text then IsCut(text, '/', prefix, rest)
    else if '_' in text then IsCut(text, '_', prefix, rest)
    else if ':' in text then IsCut(text, ':', prefix, rest)
    else prefix == "" && rest == text
  }

  predicate MentionedAt(title: string, name: string, i: nat) {
    i + |name| <= |title| && EqualFold(title[i..i + |name|], name)
  }

  ghost predicate Mentions(title: string, name: string) {
    exists i: nat :: MentionedAt(title, name, i)
  }

  const ENGINES := ["elasticsearch", "opensearch", "redis", "valkey", "memcached"]

  /** The first of the engines that the title mentions, in any case, or none. */
  ghost predicate TitleNames(title: string, engine: string) {
    || (exists k :: 0 <= k < |ENGINES| && engine == ENGINES[k] && Mentions(title, ENGINES[k])
                    && forall j :: 0 <= j < k ==> !Mentions(title, ENGINES[j]))
    || (engine == "" && forall k :: 0 <= k < |ENGINES| ==> !Mentions(title, ENGINES[k]))
  }

  /** The engines of either service and the names they go by. */
  predicate Denotes(service: string, name: string, engine: string) {
    || (service == "elasticache" && engine == "redis" && name in ["redis", "redis-oss", "redisoss"])
    || (service == "elasticache" && engine in ["valkey", "memcached"] && name == engine)
    || (service == "opensearch" && engine == "opensearch" && name in ["opensearch", "os"])
    || (service == "opensearch" && engine == "elasticsearch" && name in ["elasticsearch", "es"])
  }

  predicate IsOf(entry: ServiceLifecycle, service: string) {
    || (service == "elasticache" && Spelled(entry.service, "ELASTICACHE"))
    || (service == "opensearch"
        && (Spelled(entry.service, "OPENSEARCH") || Spelled(entry.service, "OPENSEARCH_SERVICE")
            || Spelled(entry.service, "ES")))
  }

  lemma ServiceMeans(entry: ServiceLifecycle, service: string)
    ensures ServiceOf(entry.service) == Some(service) <==> IsOf(entry, service)
  {
    hide Spelled;
    SpelledNormalizes(entry.service, "ELASTICACHE");
    SpelledNormalizes(entry.service, "OPENSEARCH");
    SpelledNormalizes(entry.service, "OPENSEARCH_SERVICE");
    SpelledNormalizes(entry.service, "ES");
  }

  lemma CutMeans(text: string, sep: char)
    ensures CutAt(text, sep).found <==> sep in text
    ensures sep in text ==> IsCut(text, sep, CutAt(text, sep).before, CutAt(text, sep).after)
  {
    var cut := CutAt(text, sep);
    assert sep in cut.before + [sep] + cut.after;
  }

  lemma PartsMean(text: string)
    ensures Parts(text, SplitEngine(text).0, SplitEngine(text).1)
  {
    hide IsCut;
    CutMeans(text, '/');
    CutMeans(text, '_');
    CutMeans(text, ':');
  }

  lemma LowerOfSlice(title: string, i: nat, j: nat)
    requires i <= j <= |title|
    ensures ToLower(title[i..j]) == ToLower(title)[i..j]
  {
    hide LowerChar;
  }

  lemma TitleContains(title: string, name: string)
    requires ToLower(name) == name
    ensures Contains(ToLower(title), name) <==> Mentions(title, name)
  {
    hide ToLower;
    ContainsMeans(ToLower(title), name);
    forall i: nat
      ensures OccursAt(ToLower(title), name, i) <==> MentionedAt(title, name, i)
    {
      if i + |name| <= |title| {
        LowerOfSlice(title, i, i + |name|);
      }
    }
  }

  lemma LowerIsSame(name: string)
    requires forall i :: 0 <= i < |name| ==> !('A' <= name[i] <= 'Z')
    ensures ToLower(name) == name
  {
  }

  lemma EnginesAreLower(k: nat)
    requires k < |ENGINES|
    ensures ToLower(ENGINES[k]) == ENGINES[k]
  {
    hide ToLower;
    LowerIsSame(ENGINES[k]);
  }

  lemma TitleMeans(title: string)
    ensures TitleNames(title, EngineInTitle(title))
  {
    hide Mentions, Contains, ToLower;
    forall k | 0 <= k < |ENGINES|
      ensures Contains(ToLower(title), ENGINES[k]) <==> Mentions(title, ENGINES[k])
    {
      EnginesAreLower(k);
      TitleContains(title, ENGINES[k]);
    }
    assert ENGINES[0] == "elasticsearch" && ENGINES[1] == "opensearch" && ENGINES[2] == "redis";
    assert ENGINES[3] == "valkey" && ENGINES[4] == "memcached";
  }

  lemma EngineMeans(service: string, name: string, engine: string)
    requires service in ["elasticache", "opensearch"]
    ensures EngineName(service, name) == engine && Offered(service, engine) <==> Denotes(service, name, engine)
  {
  }

  /** An entry is filed under a service, engine and version exactly if it is an entry of that service, the engine is
      denoted by the prefix of its version or, without one, by its title, and the version is what is left. */
  lemma KeyMeans(entry: ServiceLifecycle, key: VersionKey)
    returns (prefix: string, rest: string, name: string)
    ensures Parts(ToLower(Trim(entry.version)), prefix, rest)
    ensures if prefix == "" then TitleNames(entry.title, name) else name == prefix
    ensures HealthEntryKey(entry) == Some(key) <==>
      IsOf(entry, key.service) && Denotes(key.service, name, key.engine) && key.version == Trim(rest) != ""
  {
    hide Parts, TitleNames, Denotes, EngineName, Offered, Spelled, ServiceOf, SplitEngine, EngineInTitle, ToLower, Trim;
    var text := ToLower(Trim(entry.version));
    prefix, rest := SplitEngine(text).0, SplitEngine(text).1;
    name := if prefix == "" then EngineInTitle(entry.title) else prefix;
    PartsMean(text);
    TitleMeans(entry.title);
    ServiceMeans(entry, key.service);
    if IsOf(entry, key.service) {
      EngineMeans(key.service, name, key.engine);
    }
  }
}
