/** What a trust policy says, told from its JSON text alone, and what the update makes of it. */
module TrustMeaning {
  import opened Text
  import opened Wrappers
  import opened TrustPolicy

  // -------------------------------------------------------------- reading JSON

  /** A JSON value that decodes into a string; null leaves it empty. */
  predicate Texts(j: Json, text: string) {
    j == Str(text) || (j.Null? && text == "")
  }

  /** A text, or an array of texts. */
  predicate ListsTexts(j: Json, names: seq<string>) {
    if j.Arr? then |j.items| == |names| && forall i :: 0 <= i < |names| ==> Texts(j.items[i], names[i])
    else |names| == 1 && Texts(j, names[0])
  }

  lemma {:induction false} ItemsMean(items: seq<Json>)
    ensures AsStrings(items).Some? <==> forall i :: 0 <= i < |items| ==> items[i].Str? || items[i].Null?
    ensures AsStrings(items).Some? ==>
              |AsStrings(items).value| == |items|
              && forall i :: 0 <= i < |items| ==> Texts(items[i], AsStrings(items).value[i])
  {
    if items != [] {
      ItemsMean(items[..|items| - 1]);
    }
  }

  lemma NamesMean(j: Json, names: seq<string>)
    ensures ParseNames(j).Some? && ParseNames(j).value.names == names <==> ListsTexts(j, names)
    ensures ParseNames(j).Some? ==> ParseNames(j).value.isArray == j.Arr?
  {
    if j.Arr? {
      ItemsMean(j.items);
      if ListsTexts(j, names) {
        assert AsStrings(j.items).value == names;
      }
    } else if |names| == 1 {
      assert names == [names[0]];
    }
  }

  ghost predicate Lists(f: Fields, key: string, who: string) {
    key in f && exists names :: ListsTexts(f[key], names) && Named(names, who)
  }

  lemma FieldMeans(f: Fields, key: string, who: string)
    ensures Lists(f, key, who) <==> FieldNames(f, key).Some? && Named(FieldNames(f, key).value.names, who)
  {
    hide ParseNames, Named, ListsTexts;
    if key in f {
      if ParseNames(f[key]).Some? {
        NamesMean(f[key], ParseNames(f[key]).value.names);
      }
      forall names
        ensures ListsTexts(f[key], names) <==> ParseNames(f[key]).Some? && ParseNames(f[key]).value.names == names
      {
        NamesMean(f[key], names);
      }
    }
  }

  // ---------------------------------------------------------- what is allowed

  /** An unconditional Allow, in any case, of sts:AssumeRole, alone or among others. */
  ghost predicate AllowsAssumeRole(f: Fields) {
    && "Condition" !in f
    && "Effect" in f && f["Effect"].Str? && EqualFold(Trim(f["Effect"].text), "Allow")
    && (Lists(f, "Action", "sts:AssumeRole") || Lists(f, "Action", "sts:*") || Lists(f, "Action", "*"))
  }

  lemma GrantsMeans(f: Fields)
    ensures Grants(f) <==> AllowsAssumeRole(f)
  {
    hide Trim, ParseNames, Lists, EqualFold;
    FieldMeans(f, "Action", "sts:AssumeRole");
    FieldMeans(f, "Action", "sts:*");
    FieldMeans(f, "Action", "*");
    EmptyIsNoAllow();
  }

  lemma EmptyIsNoAllow()
    ensures !EqualFold(Trim(""), "Allow")
  {
    TrimIsProjection("");
  }

  // ------------------------------------------------------------ who is listed

  ghost predicate ListsPrincipal(stmt: Json, who: string) {
    stmt.Obj? && "Principal" in stmt.fields && stmt.fields["Principal"].Obj?
    && Lists(stmt.fields["Principal"].fields, "AWS", who)
  }

  lemma ListsAwsMeans(stmt: Json, who: string)
    ensures ListsAws(stmt, who) <==> ListsPrincipal(stmt, who)
  {
    hide Named, ParseNames, Lists;
    if stmt.Obj? && "Principal" in stmt.fields && stmt.fields["Principal"].Obj? {
      FieldMeans(stmt.fields["Principal"].fields, "AWS", who);
    }
  }

  // ------------------------------------------------------ the order of a list

  /** What becomes of a name. */
  function Became(name: string, source: string, destination: string): string {
    if Trim(name) == source then destination else Trim(name)
  }

  /** The new list holds what becomes of the names that are not blank, each once. */
  lemma {:induction false} SwapHolds(names: seq<string>, source: string, destination: string, who: string)
    requires source != "" && destination != ""
    ensures who in Swap(names, source, destination)
            <==> who != "" && exists k :: 0 <= k < |names| && Became(names[k], source, destination) == who
    ensures forall i, j :: 0 <= i < j < |Swap(names, source, destination)| ==>
              Swap(names, source, destination)[i] != Swap(names, source, destination)[j]
  {
    hide Trim;
    if names != [] {
      var front := names[..|names| - 1];
      SwapHolds(front, source, destination, who);
      if k :| 0 <= k < |front| && Became(front[k], source, destination) == who {
        assert names[k] == front[k];
      }
      if k :| 0 <= k < |names| && Became(names[k], source, destination) == who && k < |names| - 1 {
        assert front[k] == names[k];
      }
    }
  }

  /** And it keeps their order: what a part of the list becomes, the whole list begins with. */
  lemma {:induction false} SwapKeepsOrder(names: seq<string>, source: string, destination: string, k: nat)
    requires k <= |names|
    ensures Swap(names[..k], source, destination) <= Swap(names, source, destination)
  {
    hide Trim;
    if k < |names| {
      SwapKeepsOrder(names[..|names| - 1], source, destination, k);
      assert names[..|names| - 1][..k] == names[..k];
    } else {
      assert names[..k] == names;
    }
  }

  // ------------------------------------------------------ a rewritten statement

  /** The statement with other AWS principals. */
  function WithPrincipals(stmt: Json, aws: Json): Json
    requires stmt.Obj? && "Principal" in stmt.fields && stmt.fields["Principal"].Obj?
  {
    Obj(stmt.fields["Principal" := Obj(stmt.fields["Principal"].fields["AWS" := aws])])
  }

  lemma {:induction false} AsJsonMeans(names: seq<string>)
    ensures |AsJson(names)| == |names| && forall i :: 0 <= i < |names| ==> AsJson(names)[i] == Str(names[i])
  {
    if names != [] {
      AsJsonMeans(names[..|names| - 1]);
    }
  }

  predicate HasPrincipals(stmt: Json) {
    stmt.Obj? && "Principal" in stmt.fields && stmt.fields["Principal"].Obj?
    && "AWS" in stmt.fields["Principal"].fields
  }

  function Principals(stmt: Json): Json
    requires HasPrincipals(stmt)
  {
    stmt.fields["Principal"].fields["AWS"]
  }

  /** What a list of texts is written as: an array of texts for an array, a text for a text. */
  ghost predicate WrittenLike(aws: Json, was: Json, names: seq<string>) {
    && ListsTexts(aws, names) && (aws.Arr? <==> was.Arr?)
    && if aws.Arr? then forall i :: 0 <= i < |aws.items| ==> aws.items[i].Str? else aws.Str?
  }

  /** A statement that lists the source keeps everything but its AWS principals; any other statement stays as it
      is. */
  lemma RewrittenMeans(stmt: Json, source: string, destination: string, names: seq<string>)
    requires source != "" && destination != ""
    ensures !ListsPrincipal(stmt, source) ==> Rewritten(stmt, source, destination) == stmt
    ensures ListsPrincipal(stmt, source) && ListsTexts(Principals(stmt), names) ==>
      var r := Rewritten(stmt, source, destination);
      && HasPrincipals(r) && r == WithPrincipals(stmt, Principals(r))
      && WrittenLike(Principals(r), Principals(stmt), Swap(names, source, destination))
  {
    hide Trim, ParseNames, Named, Swap, AsJson, ListsTexts, Lists, AsString;
    ListsAwsMeans(stmt, source);
    if ListsAws(stmt, source) && ListsTexts(Principals(stmt), names) {
      NamesMean(Principals(stmt), names);
      SwapKeepsSource(names, source, destination);
      WrittenMeans(Principals(stmt), names, source, destination);
    }
  }

  lemma WrittenMeans(was: Json, names: seq<string>, source: string, destination: string)
    requires ListsTexts(was, names) && Swap(names, source, destination) != []
    ensures var next := Swap(names, source, destination);
      WrittenLike(if was.Arr? then Arr(AsJson(next)) else Str(next[0]), was, next)
  {
    hide Trim;
    AsJsonMeans(Swap(names, source, destination));
    if !was.Arr? {
      assert names == [names[0]];
      SwapOfOne(names[0], source, destination);
    }
  }

  // ------------------------------------------------------------ whole policies

  /** The principal of an account as a whole. */
  function AccountRoot(accountId: string): string {
    "arn:aws:iam::" + accountId + ":root"
  }

  /** A statement that trusts either account as a whole. */
  ghost predicate TrustsEither(stmt: Json, sourceId: string, destinationId: string) {
    && stmt.Obj? && AllowsAssumeRole(stmt.fields)
    && (ListsPrincipal(stmt, AccountRoot(sourceId)) || ListsPrincipal(stmt, AccountRoot(destinationId)))
  }

  /** After the update: every statement in its place, rewritten if it lists the source account; and unless one of
      them trusted either account, a statement at the end that trusts just the destination. */
  ghost predicate IsUpdate(stmts: seq<Json>, out: seq<Json>, sourceId: string, destinationId: string) {
    && RootArn(sourceId) == AccountRoot(sourceId) != "" && RootArn(destinationId) == AccountRoot(destinationId) != ""
    && |out| >= |stmts|
    && (forall i :: 0 <= i < |stmts| ==>
          out[i] == Rewritten(stmts[i], AccountRoot(sourceId), AccountRoot(destinationId)))
    && out[|stmts|..] == if exists i :: 0 <= i < |stmts| && TrustsEither(stmts[i], sourceId, destinationId) then []
                         else [Obj(map["Effect" := Str("Allow"),
                                       "Principal" := Obj(map["AWS" := Str(AccountRoot(destinationId))]),
                                       "Action" := Str("sts:AssumeRole")])]
  }

  lemma ReplacedMeans(stmts: seq<Json>, sourceId: string, destinationId: string)
    ensures RootArn(sourceId) != "" && RootArn(destinationId) != ""
    ensures IsUpdate(stmts, Replaced(stmts, RootArn(sourceId), RootArn(destinationId), TrustStatement(destinationId)),
                     sourceId, destinationId)
  {
    hide Rewritten, ListsAws, Grants, ListsPrincipal, AllowsAssumeRole;
    forall i | 0 <= i < |stmts|
      ensures Carries(stmts[i], RootArn(sourceId), RootArn(destinationId))
              <==> TrustsEither(stmts[i], sourceId, destinationId)
    {
      ListsAwsMeans(stmts[i], RootArn(sourceId));
      ListsAwsMeans(stmts[i], RootArn(destinationId));
      if stmts[i].Obj? {
        GrantsMeans(stmts[i].fields);
      }
    }
  }

  /** A document is a policy if its version, if it has one, is a text. */
  predicate Decodes(doc: Json) {
    doc.Null? || (doc.Obj? && ("Version" in doc.fields ==> doc.fields["Version"].Str? || doc.fields["Version"].Null?))
  }

  /** Its statements: none, one object, or an array. */
  predicate HasStatements(doc: Json, stmts: seq<Json>) {
    if doc.Obj? && "Statement" in doc.fields && !doc.fields["Statement"].Null? then
      || doc.fields["Statement"] == Arr(stmts)
      || (doc.fields["Statement"].Obj? && stmts == [doc.fields["Statement"]])
    else stmts == []
  }

  predicate HasVersion(doc: Json, version: string) {
    if doc.Obj? && "Version" in doc.fields && doc.fields["Version"].Str? && doc.fields["Version"].text != ""
    then version == doc.fields["Version"].text
    else version == "2012-10-17"
  }

  /** Which documents are accepted, and the version and the statements that are read from them. */
  lemma DocumentMeans(doc: Json, stmts: seq<Json>, version: string)
    ensures IsPolicy(doc) <==> Decodes(doc)
    ensures Statements(StatementField(doc)) == Ok(stmts) <==> HasStatements(doc, stmts)
    ensures AllStatements(stmts) <==> forall i :: 0 <= i < |stmts| ==> stmts[i].Obj? || stmts[i].Null?
    ensures IsPolicy(doc) ==> (VersionOf(doc) == version <==> HasVersion(doc, version))
  {
  }
}
