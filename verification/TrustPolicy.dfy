/** Rewriting the management account that a role's trust policy names. Statements are kept as JSON
    values, so everything that is not rewritten stays as it is. */
module TrustPolicy {
  import opened Text
  import opened Wrappers

  datatype Json = Null | Str(text: string) | Arr(items: seq<Json>) | Obj(fields: map<string, Json>)
      | Scalar(literal: string)

  type Fields = map<string, Json>

  const WILDCARD := "*"

  datatype PolicyError = NotAPolicy | NotAStatement | EmptyPrincipal | StatementNotObjectOrArray

  // ---------------------------------------------------------- reading a statement

  /** Decoding into a Go string: null leaves it empty. */
  function AsString(j: Json): Option<string> {
    match j
    case Str(text) => Some(text)
    case Null => Some("")
    case _ => None
  }

  function AsStrings(items: seq<Json>): Option<seq<string>> {
    if items == [] then Some([])
    else
      var front := AsStrings(items[..|items| - 1]);
      var last := AsString(items[|items| - 1]);
      if front.Some? && last.Some? then Some(front.value + [last.value]) else None
  }

  datatype Listing = Listing(names: seq<string>, isArray: bool)

  /** parseAWSPrincipals, for principals and for actions: a string or an array of strings. */
  function ParseNames(j: Json): Option<Listing> {
    if AsString(j).Some? then Some(Listing([AsString(j).value], false))
    else if j.Arr? && AsStrings(j.items).Some? then Some(Listing(AsStrings(j.items).value, true))
    else None
  }

  function FieldNames(f: Fields, key: string): Option<Listing> {
    if key in f then ParseNames(f[key]) else None
  }

  predicate IsAssumeRole(action: string) {
    Trim(action) == "sts:AssumeRole" || Trim(action) == "sts:*" || Trim(action) == WILDCARD
  }

  predicate HasEffect(f: Fields, effect: string) {
    "Effect" in f && AsString(f["Effect"]).Some? && EqualFold(Trim(AsString(f["Effect"]).value), effect)
  }

  /** What statementGrantsAssumeRole decides: an unconditional Allow of sts:AssumeRole. */
  ghost predicate Grants(f: Fields) {
    && "Condition" !in f && HasEffect(f, "Allow")
    && var actions := FieldNames(f, "Action");
       actions.Some? && exists i :: 0 <= i < |actions.value.names| && IsAssumeRole(actions.value.names[i])
  }

  method StatementGrantsAssumeRole(f: Fields) returns (grants: bool)
    ensures grants <==> Grants(f)
  {
    hide Trim, EqualFold, ParseNames, IsAssumeRole;
    if "Condition" in f {
      return false;
    }
    if !HasEffect(f, "Allow") {
      return false;
    }
    var actions := FieldNames(f, "Action");
    if actions.None? {
      return false;
    }
    for i := 0 to |actions.value.names|
      invariant forall k :: 0 <= k < i ==> !IsAssumeRole(actions.value.names[k])
    {
      if IsAssumeRole(actions.value.names[i]) {
        return true;
      }
    }
    return false;
  }

  /** The principals of one kind ("AWS", "Service", ...) that a statement lists. */
  function Listed(stmt: Json, kind: string): Option<Listing> {
    if stmt.Obj? && "Principal" in stmt.fields && stmt.fields["Principal"].Obj?
    then FieldNames(stmt.fields["Principal"].fields, kind)
    else None
  }

  ghost predicate Named(names: seq<string>, who: string) {
    exists i :: 0 <= i < |names| && Trim(names[i]) == who
  }

  ghost predicate ListsAws(stmt: Json, who: string) {
    Listed(stmt, "AWS").Some? && Named(Listed(stmt, "AWS").value.names, who)
  }

  // ------------------------------------------------------------- the rewriting

  /** Trim, skip blanks, put the destination for the source, and drop repeats. */
  function Swap(names: seq<string>, source: string, destination: string): seq<string> {
    if names == [] then []
    else
      var next := Swap(names[..|names| - 1], source, destination);
      var p := Trim(names[|names| - 1]);
      var q := if p == source then destination else p;
      if p == "" || q in next then next else next + [q]
  }

  function AsJson(names: seq<string>): seq<Json> {
    if names == [] then [] else AsJson(names[..|names| - 1]) + [Str(names[|names| - 1])]
  }

  function WithAws(stmt: Json, aws: Json): Json
    requires stmt.Obj? && "Principal" in stmt.fields && stmt.fields["Principal"].Obj?
  {
    Obj(stmt.fields["Principal" := Obj(stmt.fields["Principal"].fields["AWS" := aws])])
  }

  /** A statement after the rewriting: unchanged unless it lists the source. */
  ghost function Rewritten(stmt: Json, source: string, destination: string): Json
    requires source != "" && destination != ""
  {
    if !ListsAws(stmt, source) then stmt
    else
      var listing := Listed(stmt, "AWS").value;
      var next := Swap(listing.names, source, destination);
      SwapKeepsSource(listing.names, source, destination);
      WithAws(stmt, if listing.isArray then Arr(AsJson(next)) else Str(next[0]))
  }

  lemma {:induction false} SwapKeepsSource(names: seq<string>, source: string, destination: string)
    requires source != "" && destination != ""
    ensures Named(names, source) ==> destination in Swap(names, source, destination)
    ensures Swap(names, source, destination) != [] || !Named(names, source)
  {
    hide Trim;
    if names != [] {
      var front := names[..|names| - 1];
      SwapKeepsSource(front, source, destination);
      if Named(names, source) && Trim(names[|names| - 1]) != source {
        var i :| 0 <= i < |names| && Trim(names[i]) == source;
        assert front[i] == names[i];
      }
    }
  }

  /** A statement that carries management-account trust: it grants and lists one of the two roots. */
  ghost predicate Carries(stmt: Json, source: string, destination: string) {
    stmt.Obj? && Grants(stmt.fields) && (ListsAws(stmt, source) || ListsAws(stmt, destination))
  }

  /** rewriteManagementPrincipalInStatement. Its "principal became empty" error cannot happen. */
  method RewriteStatement(raw: Json, source: string, destination: string) returns (r: Result<(Json, bool), PolicyError>)
    requires source != "" && destination != ""
    ensures raw.Obj? || raw.Null? ==> r == Ok((Rewritten(raw, source, destination), Carries(raw, source, destination)))
    ensures !raw.Obj? && !raw.Null? ==> r == Err(NotAStatement)
  {
    hide Trim, Grants, ParseNames, AsJson;
    if raw.Null? {
      return Ok((raw, false));
    }
    if !raw.Obj? {
      return Err(NotAStatement);
    }
    var grants := StatementGrantsAssumeRole(raw.fields);
    if "Principal" !in raw.fields || !raw.fields["Principal"].Obj? || "AWS" !in raw.fields["Principal"].fields {
      return Ok((raw, false));
    }
    var listing := ParseNames(raw.fields["Principal"].fields["AWS"]);
    if listing.None? {
      return Ok((raw, false));
    }
    var found, rewrote, next := SwapPrincipals(listing.value.names, source, destination, grants);
    if !rewrote {
      return Ok((raw, found));
    }
    SwapKeepsSource(listing.value.names, source, destination);
    if |next| == 0 {
      return Err(EmptyPrincipal);
    }
    var aws := if listing.value.isArray then Arr(AsJson(next)) else Str(next[0]);
    return Ok((WithAws(raw, aws), found));
  }

  method SwapPrincipals(names: seq<string>, source: string, destination: string, grants: bool)
    returns (found: bool, rewrote: bool, next: seq<string>)
    requires source != "" && destination != ""
    ensures next == Swap(names, source, destination) && (rewrote <==> Named(names, source))
    ensures found <==> grants && (Named(names, source) || Named(names, destination))
  {
    hide Trim;
    found, rewrote, next := false, false, [];
    var seen: set<string> := {};
    assert names[..0] == [] && names[..|names|] == names;
    for i := 0 to |names|
      invariant next == Swap(names[..i], source, destination)
      invariant forall x :: x in seen <==> x in next
      invariant rewrote <==> Named(names[..i], source)
      invariant found <==> grants && (Named(names[..i], source) || Named(names[..i], destination))
    {
      assert names[..i + 1][..i] == names[..i];
      NamedSnoc(names, i, source);
      NamedSnoc(names, i, destination);
      var p := Trim(names[i]);
      if p == "" {
        continue;
      }
      if p == source {
        found := found || grants;
        rewrote := true;
        p := destination;
      } else if p == destination {
        found := found || grants;
      }
      if p in seen {
        continue;
      }
      seen := seen + {p};
      next := next + [p];
    }
  }

  lemma NamedSnoc(names: seq<string>, i: nat, who: string)
    requires i < |names|
    ensures Named(names[..i + 1], who) <==> Named(names[..i], who) || Trim(names[i]) == who
  {
    hide Trim;
    assert forall k :: 0 <= k < i ==> names[..i + 1][k] == names[..i][k];
    assert names[..i + 1][i] == names[i];
    if Named(names[..i], who) {
      var k :| 0 <= k < i && Trim(names[..i][k]) == who;
      assert Trim(names[..i + 1][k]) == who;
    }
  }

  // ---------------------------------------------------------- the whole policy

  function RootArn(accountId: string): string {
    "arn:aws:iam::" + accountId + ":root"
  }

  /** The Organizations-style trust statement. */
  function TrustStatement(accountId: string): Json {
    Obj(map["Effect" := Str("Allow"), "Principal" := Obj(map["AWS" := Str(RootArn(accountId))]),
            "Action" := Str("sts:AssumeRole")])
  }

  ghost predicate Touched(stmts: seq<Json>, source: string, destination: string) {
    exists i :: 0 <= i < |stmts| && Carries(stmts[i], source, destination)
  }

  ghost function RewrittenAll(stmts: seq<Json>, source: string, destination: string): (out: seq<Json>)
    requires source != "" && destination != ""
    ensures |out| == |stmts| && forall i :: 0 <= i < |stmts| ==> out[i] == Rewritten(stmts[i], source, destination)
  {
    seq(|stmts|, i requires 0 <= i < |stmts| => Rewritten(stmts[i], source, destination))
  }

  /** The policy's statements after the update: rewritten in place, and the trust statement appended if
      none of them carries the trust. */
  ghost function Replaced(stmts: seq<Json>, source: string, destination: string, replacement: Json): seq<Json>
    requires source != "" && destination != ""
  {
    RewrittenAll(stmts, source, destination) + if Touched(stmts, source, destination) then [] else [replacement]
  }

  ghost predicate AllStatements(stmts: seq<Json>) {
    forall i :: 0 <= i < |stmts| ==> stmts[i].Obj? || stmts[i].Null?
  }

  /** replaceManagementAccountTrustStatement. It fails only on a statement that is no JSON object. */
  method ReplaceTrustStatement(stmts: seq<Json>, sourceId: string, destinationId: string, replacement: Json)
    returns (r: Result<seq<Json>, PolicyError>)
    ensures AllStatements(stmts) ==> r == Ok(Replaced(stmts, RootArn(sourceId), RootArn(destinationId), replacement))
    ensures !AllStatements(stmts) ==> r == Err(NotAStatement)
  {
    hide Rewritten, Carries;
    var source, destination := RootArn(sourceId), RootArn(destinationId);
    var out: seq<Json> := [];
    var touched := false;
    for i := 0 to |stmts|
      invariant forall k :: 0 <= k < i ==> stmts[k].Obj? || stmts[k].Null?
      invariant |out| == i && forall k :: 0 <= k < i ==> out[k] == Rewritten(stmts[k], source, destination)
      invariant touched <==> exists k :: 0 <= k < i && Carries(stmts[k], source, destination)
    {
      var rewritten := RewriteStatement(stmts[i], source, destination);
      if rewritten.Err? {
        return Err(rewritten.error);
      }
      if rewritten.value.1 {
        touched := true;
      }
      out := out + [rewritten.value.0];
    }
    assert out == RewrittenAll(stmts, source, destination);
    assert out + [] == out;
    assert touched <==> Touched(stmts, source, destination);
    if !touched {
      out := out + [replacement];
    }
    return Ok(out);
  }

  /** A policy's Statement may be absent, one object or an array. */
  function Statements(statement: Option<Json>): Result<seq<Json>, PolicyError> {
    match statement
    case None => Ok([])
    case Some(Null) => Ok([])
    case Some(Arr(items)) => Ok(items)
    case Some(Obj(fields)) => Ok([Obj(fields)])
    case Some(_) => Err(StatementNotObjectOrArray)
  }

  /** updateLinkedRoleTrust on the policy's Statement. */
  method UpdateTrust(statement: Option<Json>, sourceId: string, destinationId: string)
    returns (r: Result<seq<Json>, PolicyError>)
    ensures Statements(statement).Err? ==> r == Err(StatementNotObjectOrArray)
    ensures Statements(statement).Ok? && !AllStatements(Statements(statement).value) ==> r == Err(NotAStatement)
    ensures Statements(statement).Ok? && AllStatements(Statements(statement).value) ==>
              r == Ok(Replaced(Statements(statement).value, RootArn(sourceId), RootArn(destinationId),
                               TrustStatement(destinationId)))
  {
    hide Replaced, TrustStatement, AllStatements, RootArn;
    var stmts := Statements(statement);
    if stmts.Err? {
      return Err(stmts.error);
    }
    r := ReplaceTrustStatement(stmts.value, sourceId, destinationId, TrustStatement(destinationId));
  }

  const DEFAULT_VERSION := "2012-10-17"

  /** A document that decodes: null, or an object whose Version, if any, is a string. */
  predicate IsPolicy(doc: Json) {
    doc.Null? || (doc.Obj? && ("Version" in doc.fields ==> AsString(doc.fields["Version"]).Some?))
  }

  function VersionOf(doc: Json): string
    requires IsPolicy(doc)
  {
    if doc.Obj? && "Version" in doc.fields && AsString(doc.fields["Version"]).value != ""
      then AsString(doc.fields["Version"]).value
    else DEFAULT_VERSION
  }

  function StatementField(doc: Json): Option<Json> {
    if doc.Obj? && "Statement" in doc.fields then Some(doc.fields["Statement"]) else None
  }

  /** updateLinkedRoleTrust on the whole document: it keeps the version and the updated statements, and
      drops every other top-level field. */
  method UpdateDocument(doc: Json, sourceId: string, destinationId: string) returns (r: Result<Json, PolicyError>)
    ensures !IsPolicy(doc) ==> r == Err(NotAPolicy)
    ensures IsPolicy(doc) ==>
              (r.Ok? <==> Statements(StatementField(doc)).Ok? && AllStatements(Statements(StatementField(doc)).value))
    ensures RootArn(sourceId) != "" && RootArn(destinationId) != ""
    ensures r.Ok? ==>
              r.value == Obj(map["Version" := Str(VersionOf(doc)),
                                 "Statement" := Arr(Replaced(Statements(StatementField(doc)).value, RootArn(sourceId),
                                                             RootArn(destinationId),
                                                             TrustStatement(destinationId)))])
  {
    hide Replaced, TrustStatement, AllStatements, RootArn;
    RootIsNoWildcard(sourceId);
    RootIsNoWildcard(destinationId);
    if !IsPolicy(doc) {
      return Err(NotAPolicy);
    }
    var updated := UpdateTrust(StatementField(doc), sourceId, destinationId);
    if updated.Err? {
      return Err(updated.error);
    }
    return Ok(Obj(map["Version" := Str(VersionOf(doc)), "Statement" := Arr(updated.value)]));
  }

  // ----------------------------------------------------------- what it means

  /** Somebody who asks to assume the role: an AWS principal, a service, and so on. */
  datatype Requester = Requester(kind: string, name: string)

  /** Principals, everybody or by kind, name the requester. */
  ghost predicate NamedBy(principal: Json, w: Requester) {
    principal == Str(WILDCARD)
    || (principal.Obj? && FieldNames(principal.fields, w.kind).Some?
        && (Named(FieldNames(principal.fields, w.kind).value.names, w.name)
            || Named(FieldNames(principal.fields, w.kind).value.names, WILDCARD)))
  }

  ghost predicate Includes(stmt: Json, w: Requester) {
    stmt.Obj? && "Principal" in stmt.fields && NamedBy(stmt.fields["Principal"], w)
  }

  /** The statement has a NotPrincipal, which covers everybody that it does not name. */
  ghost predicate DoesNotExclude(stmt: Json, w: Requester) {
    stmt.Obj? && "NotPrincipal" in stmt.fields && !NamedBy(stmt.fields["NotPrincipal"], w)
  }

  /** The statement applies to the requester. */
  ghost predicate Covers(stmt: Json, w: Requester) {
    Includes(stmt, w) || DoesNotExclude(stmt, w)
  }

  /** Everything a statement says besides whom it covers. */
  function Rest(stmt: Json): Fields
    requires stmt.Obj?
  {
    stmt.fields - {"Principal"}
  }

  /** What a requester faces: the rest of every statement that covers it, in order. Whatever decides a
      request, by effect, action, condition or anything else, decides it from this. */
  ghost function Facing(stmts: seq<Json>, w: Requester): seq<Fields> {
    if stmts == [] then []
    else
      var last := stmts[|stmts| - 1];
      Facing(stmts[..|stmts| - 1], w) + if Covers(last, w) then [Rest(last)] else []
  }

  /** The two roots, as the code compares them: trimmed, different, no wildcard. */
  predicate ProperRoots(source: string, destination: string) {
    && Trim(source) == source && Trim(destination) == destination && source != destination
    && source !in ["", WILDCARD] && destination !in ["", WILDCARD]
  }

  lemma RootsAreProper(sourceId: string, destinationId: string)
    requires sourceId != destinationId
    ensures ProperRoots(RootArn(sourceId), RootArn(destinationId))
  {
    RootIsTrimmed(sourceId);
    RootIsTrimmed(destinationId);
    IdInRoot(sourceId);
    IdInRoot(destinationId);
  }

  /** The account ID can be read off its root. */
  lemma IdInRoot(accountId: string)
    ensures |RootArn(accountId)| >= 18 && RootArn(accountId)[13..|RootArn(accountId)| - 5] == accountId
  {
  }

  lemma RootIsTrimmed(accountId: string)
    ensures Trim(RootArn(accountId)) == RootArn(accountId)
  {
    var arn := RootArn(accountId);
    assert arn[0] == 'a' && arn[|arn| - 1] == 't';
    TrimIsProjection(arn);
  }

  // ------------------------------------------------- principals after the swap

  /** Whom the swapped list names. */
  lemma {:induction false} SwapNames(names: seq<string>, source: string, destination: string, who: string)
    requires ProperRoots(source, destination)
    ensures who in Swap(names, source, destination)
            <==> who != "" && who != source && (Named(names, who) || (who == destination && Named(names, source)))
  {
    hide Trim;
    if names != [] {
      var n := |names| - 1;
      SwapNames(names[..n], source, destination, who);
      SwapNames(names[..n], source, destination, if Trim(names[n]) == source then destination else Trim(names[n]));
      NamedSnoc(names, n, who);
      NamedSnoc(names, n, source);
      assert names[..n + 1] == names;
    }
  }

  lemma {:induction false} SwapIsTrimmed(names: seq<string>, source: string, destination: string)
    requires ProperRoots(source, destination)
    ensures forall i :: 0 <= i < |Swap(names, source, destination)| ==>
              Trim(Swap(names, source, destination)[i]) == Swap(names, source, destination)[i]
  {
    hide Trim;
    if names != [] {
      SwapIsTrimmed(names[..|names| - 1], source, destination);
      TrimTwice(names[|names| - 1]);
    }
  }

  lemma TrimTwice(s: string)
    ensures Trim(Trim(s)) == Trim(s)
  {
    TrimIsProjection(s);
    TrimIsProjection(Trim(s));
  }

  lemma {:induction false} ReadBack(names: seq<string>)
    ensures AsStrings(AsJson(names)) == Some(names)
  {
    if names != [] {
      var front := AsJson(names[..|names| - 1]);
      ReadBack(names[..|names| - 1]);
      assert (front + [Str(names[|names| - 1])])[..|front|] == front;
      assert names[..|names| - 1] + [names[|names| - 1]] == names;
    }
  }

  lemma {:induction false} SwapOfOne(name: string, source: string, destination: string)
    ensures |Swap([name], source, destination)| <= 1
  {
    assert [name][..0] == [];
  }

  lemma WithAwsLists(stmt: Json, aws: Json)
    requires stmt.Obj? && "Principal" in stmt.fields && stmt.fields["Principal"].Obj?
    ensures WithAws(stmt, aws).Obj? && Listed(WithAws(stmt, aws), "AWS") == ParseNames(aws)
  {
    hide ParseNames;
  }

  lemma WrittenParses(names: seq<string>, isArray: bool)
    requires names != [] && (!isArray ==> |names| == 1)
    ensures ParseNames(if isArray then Arr(AsJson(names)) else Str(names[0])) == Some(Listing(names, isArray))
  {
    hide AsJson, AsStrings;
    ReadBack(names);
    if !isArray {
      assert names == [names[0]];
    }
  }

  lemma SingleParse(j: Json)
    ensures ParseNames(j).Some? && !ParseNames(j).value.isArray ==> |ParseNames(j).value.names| == 1
  {
  }

  /** Reading a rewritten statement gives the swapped list back. */
  lemma RewrittenLists(stmt: Json, source: string, destination: string)
    requires ProperRoots(source, destination) && ListsAws(stmt, source)
    ensures Rewritten(stmt, source, destination).Obj?
    ensures var listed := Listed(Rewritten(stmt, source, destination), "AWS");
      listed.Some? && listed.value.names == Swap(Listed(stmt, "AWS").value.names, source, destination)
  {
    hide Trim, ParseNames, Named, Swap, WithAws, AsJson;
    var listing := Listed(stmt, "AWS").value;
    var next := Swap(listing.names, source, destination);
    SwapKeepsSource(listing.names, source, destination);
    SingleParse(stmt.fields["Principal"].fields["AWS"]);
    if !listing.isArray {
      SwapOfOne(listing.names[0], source, destination);
      assert listing.names == [listing.names[0]];
    }
    WrittenParses(next, listing.isArray);
    WithAwsLists(stmt, if listing.isArray then Arr(AsJson(next)) else Str(next[0]));
  }

  lemma TrimmedNames(names: seq<string>, who: string)
    requires forall i :: 0 <= i < |names| ==> Trim(names[i]) == names[i]
    ensures Named(names, who) <==> who in names
  {
    hide Trim;
    if Named(names, who) {
      var i :| 0 <= i < |names| && Trim(names[i]) == who;
      assert names[i] == who;
    }
    if who in names {
      var i :| 0 <= i < |names| && names[i] == who;
      assert Trim(names[i]) == who;
    }
  }

  /** Whom a rewritten statement lists: the destination if either root was listed, the source never,
      everybody else as before. */
  lemma RewrittenNames(stmt: Json, source: string, destination: string, who: string)
    requires ProperRoots(source, destination) && who != ""
    ensures ListsAws(Rewritten(stmt, source, destination), who)
            <==> who != source && (ListsAws(stmt, who) || (who == destination && ListsAws(stmt, source)))
  {
    hide Trim, Swap, Listed;
    if ListsAws(stmt, source) {
      RewrittenLists(stmt, source, destination);
      var names := Listed(stmt, "AWS").value.names;
      SwapNames(names, source, destination, who);
      SwapIsTrimmed(names, source, destination);
      TrimmedNames(Swap(names, source, destination), who);
    }
  }

  lemma RewrittenRest(stmt: Json, source: string, destination: string)
    requires source != "" && destination != ""
    ensures Rewritten(stmt, source, destination).Obj? <==> stmt.Obj?
    ensures stmt.Obj? ==> Rest(Rewritten(stmt, source, destination)) == Rest(stmt)
  {
    hide Trim, Swap, ParseNames, AsJson;
    if ListsAws(stmt, source) {
      SwapKeepsSource(Listed(stmt, "AWS").value.names, source, destination);
      var f := stmt.fields;
      var g := Rewritten(stmt, source, destination).fields;
      assert g.Keys == f.Keys;
      assert g - {"Principal"} == f - {"Principal"};
    }
  }

  /** The other kinds of principals of a rewritten statement are those it had. */
  lemma RewrittenOthers(stmt: Json, source: string, destination: string, kind: string)
    requires source != "" && destination != "" && kind != "AWS"
    ensures Listed(Rewritten(stmt, source, destination), kind) == Listed(stmt, kind)
  {
    hide Trim, Swap, ParseNames, AsJson;
    if ListsAws(stmt, source) {
      SwapKeepsSource(Listed(stmt, "AWS").value.names, source, destination);
    }
  }

  /** Covered after the rewriting. */
  ghost predicate CoveredBy(stmt: Json, w: Requester, source: string, destination: string) {
    || DoesNotExclude(stmt, w)
    || if w == Requester("AWS", source) then Includes(stmt, Requester("AWS", WILDCARD))
       else if w == Requester("AWS", destination) then Includes(stmt, w) || Includes(stmt, Requester("AWS", source))
       else Includes(stmt, w)
  }

  lemma RewrittenCovers(stmt: Json, source: string, destination: string, w: Requester)
    requires ProperRoots(source, destination) && w.name != ""
    ensures Covers(Rewritten(stmt, source, destination), w) <==> CoveredBy(stmt, w, source, destination)
  {
    hide Trim, Swap, ParseNames, Named, AsJson, DoesNotExclude;
    SameExclusion(stmt, source, destination, w);
    if ListsAws(stmt, source) {
      RewrittenShape(stmt, source, destination);
      if w.kind == "AWS" {
        RewrittenNames(stmt, source, destination, w.name);
        RewrittenNames(stmt, source, destination, WILDCARD);
      } else {
        RewrittenOthers(stmt, source, destination, w.kind);
      }
    }
  }

  /** NotPrincipal is never rewritten. */
  lemma SameExclusion(stmt: Json, source: string, destination: string, w: Requester)
    requires source != "" && destination != ""
    ensures DoesNotExclude(Rewritten(stmt, source, destination), w) <==> DoesNotExclude(stmt, w)
  {
    hide NamedBy, Swap, ParseNames, AsJson, Trim;
    if ListsAws(stmt, source) {
      SwapKeepsSource(Listed(stmt, "AWS").value.names, source, destination);
    }
  }

  lemma RewrittenShape(stmt: Json, source: string, destination: string)
    requires source != "" && destination != "" && ListsAws(stmt, source)
    ensures var r := Rewritten(stmt, source, destination);
      r.Obj? && "Principal" in r.fields && r.fields["Principal"].Obj?
  {
    hide Trim, Swap, ParseNames, AsJson;
    SwapKeepsSource(Listed(stmt, "AWS").value.names, source, destination);
  }

  // ------------------------------------------------------------- main results

  /** The part of a policy that a requester will face after the update. */
  ghost function FacingAfter(stmts: seq<Json>, w: Requester, source: string, destination: string): seq<Fields> {
    if stmts == [] then []
    else
      var last := stmts[|stmts| - 1];
      FacingAfter(stmts[..|stmts| - 1], w, source, destination)
          + if CoveredBy(last, w, source, destination) then [Rest(last)] else []
  }

  lemma {:induction false} RewrittenFacing(stmts: seq<Json>, source: string, destination: string, w: Requester)
    requires ProperRoots(source, destination) && w.name != ""
    ensures Facing(RewrittenAll(stmts, source, destination), w) == FacingAfter(stmts, w, source, destination)
  {
    hide Rewritten, CoveredBy, Trim;
    if stmts != [] {
      var n := |stmts| - 1;
      RewrittenFacing(stmts[..n], source, destination, w);
      assert RewrittenAll(stmts, source, destination)[..n] == RewrittenAll(stmts[..n], source, destination);
      RewrittenCovers(stmts[n], source, destination, w);
      RewrittenRest(stmts[n], source, destination);
      CoveredIsObject(stmts[n], w, source, destination);
    }
  }

  lemma CoveredIsObject(stmt: Json, w: Requester, source: string, destination: string)
    ensures CoveredBy(stmt, w, source, destination) ==> stmt.Obj?
  {
  }

  lemma {:induction false} ThirdPartyFacing(stmts: seq<Json>, source: string, destination: string, w: Requester)
    requires w != Requester("AWS", source) && w != Requester("AWS", destination)
    ensures FacingAfter(stmts, w, source, destination) == Facing(stmts, w)
  {
    hide Includes, DoesNotExclude;
    if stmts != [] {
      ThirdPartyFacing(stmts[..|stmts| - 1], source, destination, w);
    }
  }

  lemma FacingSnoc(stmts: seq<Json>, stmt: Json, w: Requester)
    ensures Facing(stmts + [stmt], w) == Facing(stmts, w) + if Covers(stmt, w) then [Rest(stmt)] else []
  {
    hide Covers;
    assert (stmts + [stmt])[..|stmts|] == stmts;
  }

  /** The appended statement covers the destination's root and nobody else, and grants. */
  lemma ReplacementCovers(destinationId: string, w: Requester)
    ensures Covers(TrustStatement(destinationId), w) <==> w == Requester("AWS", RootArn(destinationId))
    ensures Grants(TrustStatement(destinationId).fields)
    ensures ListsAws(TrustStatement(destinationId), RootArn(destinationId))
  {
    hide EqualFold, RootArn, IsAssumeRole;
    RootIsTrimmed(destinationId);
    RootIsNoWildcard(destinationId);
    var root := RootArn(destinationId);
    TrimmedNames([root], root);
    TrimmedNames([root], w.name);
    TrimmedNames([root], WILDCARD);
    ReplacementGrants();
    var f := TrustStatement(destinationId).fields;
    assert FieldNames(f, "Action").value.names == ["sts:AssumeRole"];
    assert FieldNames(f, "Action").value.names[0] == "sts:AssumeRole";
  }

  lemma RootIsNoWildcard(accountId: string)
    ensures RootArn(accountId) != WILDCARD && RootArn(accountId) != ""
  {
    assert |RootArn(accountId)| > 1;
  }

  lemma ReplacementGrants()
    ensures EqualFold(Trim("Allow"), "Allow") && IsAssumeRole("sts:AssumeRole")
  {
    TrimIsProjection("Allow");
    TrimIsProjection("sts:AssumeRole");
  }

  /** Third parties are unaffected: they face the very same statements, so every decision about them that
      depends on the statements that name them is the same. Users and roles of the source and destination
      accounts, to which a root principal delegates, are no third parties. */
  lemma ThirdPartiesUnaffected(stmts: seq<Json>, sourceId: string, destinationId: string, w: Requester)
    requires sourceId != destinationId && w.name != ""
    requires w != Requester("AWS", RootArn(sourceId)) && w != Requester("AWS", RootArn(destinationId))
    ensures RootArn(sourceId) != "" && RootArn(destinationId) != ""
    ensures Facing(Replaced(stmts, RootArn(sourceId), RootArn(destinationId), TrustStatement(destinationId)), w)
            == Facing(stmts, w)
  {
    hide Covers, Rewritten, RootArn, TrustStatement, Trim, Touched, Facing, RewrittenAll, FacingAfter;
    var source, destination := RootArn(sourceId), RootArn(destinationId);
    RootsAreProper(sourceId, destinationId);
    RewrittenFacing(stmts, source, destination, w);
    ThirdPartyFacing(stmts, source, destination, w);
    ReplacementCovers(destinationId, w);
    var all := RewrittenAll(stmts, source, destination);
    FacingSnoc(all, TrustStatement(destinationId), w);
    assert all + [] == all;
  }

  /** Statements that do not list the source stay as they are, at the same place. */
  lemma UntouchedVerbatim(stmts: seq<Json>, source: string, destination: string, replacement: Json, i: nat)
    requires source != "" && destination != "" && i < |stmts| && !ListsAws(stmts[i], source)
    ensures i < |Replaced(stmts, source, destination, replacement)|
    ensures Replaced(stmts, source, destination, replacement)[i] == stmts[i]
  {
    hide ListsAws;
  }

  /** Afterwards no statement lists the source. */
  lemma SourceIsGone(stmts: seq<Json>, sourceId: string, destinationId: string, i: nat)
    requires sourceId != destinationId && RootArn(sourceId) != "" && RootArn(destinationId) != ""
    requires i < |Replaced(stmts, RootArn(sourceId), RootArn(destinationId), TrustStatement(destinationId))|
    ensures !ListsAws(Replaced(stmts, RootArn(sourceId), RootArn(destinationId), TrustStatement(destinationId))[i],
                      RootArn(sourceId))
  {
    hide Trim, Rewritten, RootArn, TrustStatement, Touched;
    var source, destination := RootArn(sourceId), RootArn(destinationId);
    RootsAreProper(sourceId, destinationId);
    if i < |stmts| {
      RewrittenNames(stmts[i], source, destination, source);
    } else {
      ReplacementLists(destinationId, source);
    }
  }

  lemma ReplacementLists(destinationId: string, who: string)
    ensures ListsAws(TrustStatement(destinationId), who) <==> who == RootArn(destinationId)
  {
    hide RootArn, Trim;
    RootIsTrimmed(destinationId);
    TrimmedNames([RootArn(destinationId)], who);
  }

  /** Afterwards some statement unconditionally allows the destination to assume the role. */
  lemma DestinationIsTrusted(stmts: seq<Json>, sourceId: string, destinationId: string) returns (i: nat)
    requires sourceId != destinationId && RootArn(sourceId) != "" && RootArn(destinationId) != ""
    ensures var out := Replaced(stmts, RootArn(sourceId), RootArn(destinationId), TrustStatement(destinationId));
      i < |out| && out[i].Obj? && Grants(out[i].fields) && ListsAws(out[i], RootArn(destinationId))
  {
    hide Trim, Rewritten, RootArn, TrustStatement, Grants, ListsAws;
    var source, destination := RootArn(sourceId), RootArn(destinationId);
    RootsAreProper(sourceId, destinationId);
    if Touched(stmts, source, destination) {
      i :| 0 <= i < |stmts| && Carries(stmts[i], source, destination);
      RewrittenRest(stmts[i], source, destination);
      GrantsByRest(stmts[i], Rewritten(stmts[i], source, destination));
      RewrittenNames(stmts[i], source, destination, destination);
    } else {
      i := |stmts|;
      ReplacementCovers(destinationId, Requester("AWS", destination));
      ReplacementIsObject(destinationId);
    }
  }

  lemma ReplacementIsObject(destinationId: string)
    ensures TrustStatement(destinationId).Obj?
  {
  }

  lemma GrantsByRest(a: Json, b: Json)
    requires a.Obj? && b.Obj? && Rest(a) == Rest(b)
    ensures Grants(a.fields) <==> Grants(b.fields)
  {
    hide Trim, EqualFold, ParseNames, IsAssumeRole;
    RestFields(a, "Condition");
    RestFields(b, "Condition");
    RestFields(a, "Effect");
    RestFields(b, "Effect");
    RestFields(a, "Action");
    RestFields(b, "Action");
  }

  lemma RestFields(a: Json, key: string)
    requires a.Obj? && key != "Principal"
    ensures key in Rest(a) <==> key in a.fields
    ensures key in a.fields ==> Rest(a)[key] == a.fields[key]
  {
  }

  /** Updating twice is the same as updating once. */
  lemma UpdateIsIdempotent(stmts: seq<Json>, sourceId: string, destinationId: string)
    requires sourceId != destinationId
    ensures RootArn(sourceId) != "" && RootArn(destinationId) != ""
    ensures var once := Replaced(stmts, RootArn(sourceId), RootArn(destinationId), TrustStatement(destinationId));
      Replaced(once, RootArn(sourceId), RootArn(destinationId), TrustStatement(destinationId)) == once
  {
    hide Trim, RootArn, TrustStatement, Grants, ListsAws, Replaced;
    RootsAreProper(sourceId, destinationId);
    var source, destination := RootArn(sourceId), RootArn(destinationId);
    var once := Replaced(stmts, source, destination, TrustStatement(destinationId));
    forall i | 0 <= i < |once|
      ensures Rewritten(once[i], source, destination) == once[i]
    {
      SourceIsGone(stmts, sourceId, destinationId, i);
    }
    var i := DestinationIsTrusted(stmts, sourceId, destinationId);
    assert Carries(once[i], source, destination);
    ReplacedUnchanged(once, source, destination, TrustStatement(destinationId));
  }

  lemma ReplacedUnchanged(stmts: seq<Json>, source: string, destination: string, replacement: Json)
    requires source != "" && destination != "" && Touched(stmts, source, destination)
    requires forall i :: 0 <= i < |stmts| ==> Rewritten(stmts[i], source, destination) == stmts[i]
    ensures Replaced(stmts, source, destination, replacement) == stmts
  {
    hide Rewritten, Carries;
    assert RewrittenAll(stmts, source, destination) == stmts;
  }

  // -------------------------------------------- when the destination is allowed

  /** Some statement faced has the effect and applies to the request. */
  ghost predicate SomeApplies(facing: seq<Fields>, effect: string, applies: Fields -> bool) {
    exists i :: 0 <= i < |facing| && HasEffect(facing[i], effect) && applies(facing[i])
  }

  /** Deny wins over Allow. */
  ghost predicate Allowed(facing: seq<Fields>, applies: Fields -> bool) {
    SomeApplies(facing, "Allow", applies) && !SomeApplies(facing, "Deny", applies)
  }

  /** Some statement that covers the destination, or has the source among its principals, denies the request. */
  ghost predicate DeniesEither(stmts: seq<Json>, source: string, destination: string, applies: Fields -> bool) {
    exists i :: 0 <= i < |stmts| && DeniesAt(stmts[i], source, destination, applies)
  }

  ghost predicate DeniesAt(stmt: Json, source: string, destination: string, applies: Fields -> bool) {
    && (Covers(stmt, Requester("AWS", destination)) || Includes(stmt, Requester("AWS", source)))
    && HasEffect(Rest(stmt), "Deny") && applies(Rest(stmt))
  }

  lemma {:induction false} FacingDenies(stmts: seq<Json>, source: string, destination: string, applies: Fields -> bool)
    requires source != destination
    ensures SomeApplies(FacingAfter(stmts, Requester("AWS", destination), source, destination), "Deny", applies)
            <==> DeniesEither(stmts, source, destination, applies)
  {
    hide Includes, DoesNotExclude, HasEffect, Rest, SomeApplies;
    NoneApplies("Deny", applies);
    if stmts != [] {
      var n := |stmts| - 1;
      FacingDenies(stmts[..n], source, destination, applies);
      DeniesSnoc(stmts, source, destination, applies);
      var front := FacingAfter(stmts[..n], Requester("AWS", destination), source, destination);
      CoveredIsObject(stmts[n], Requester("AWS", destination), source, destination);
      if CoveredBy(stmts[n], Requester("AWS", destination), source, destination) {
        SomeSnoc(front, Rest(stmts[n]), "Deny", applies);
      } else {
        assert front + [] == front;
      }
    }
  }

  lemma SomeSnoc(facing: seq<Fields>, f: Fields, effect: string, applies: Fields -> bool)
    ensures SomeApplies(facing + [f], effect, applies)
            <==> SomeApplies(facing, effect, applies) || (HasEffect(f, effect) && applies(f))
  {
    hide HasEffect;
    var grown := facing + [f];
    assert grown[|facing|] == f;
    assert forall i :: 0 <= i < |facing| ==> grown[i] == facing[i];
    if SomeApplies(facing, effect, applies) {
      var i :| 0 <= i < |facing| && HasEffect(facing[i], effect) && applies(facing[i]);
      assert HasEffect(grown[i], effect) && applies(grown[i]);
    }
  }

  lemma NoneApplies(effect: string, applies: Fields -> bool)
    ensures !SomeApplies([], effect, applies)
  {
  }

  lemma DeniesSnoc(stmts: seq<Json>, source: string, destination: string, applies: Fields -> bool)
    requires stmts != []
    ensures DeniesEither(stmts, source, destination, applies)
            <==> DeniesEither(stmts[..|stmts| - 1], source, destination, applies)
                 || DeniesAt(stmts[|stmts| - 1], source, destination, applies)
  {
    hide DeniesAt;
    var front := stmts[..|stmts| - 1];
    assert forall i :: 0 <= i < |front| ==> front[i] == stmts[i];
    if DeniesEither(front, source, destination, applies) {
      var i :| 0 <= i < |front| && DeniesAt(front[i], source, destination, applies);
      assert DeniesAt(stmts[i], source, destination, applies);
    }
  }

  lemma {:induction false} CoveredIsFaced(stmts: seq<Json>, w: Requester, i: nat)
    requires i < |stmts| && Covers(stmts[i], w)
    ensures Rest(stmts[i]) in Facing(stmts, w)
  {
    hide Covers;
    if i < |stmts| - 1 {
      CoveredIsFaced(stmts[..|stmts| - 1], w, i);
    }
  }

  /** After the update the destination may assume the role, by any rule that lets unconditional Allow
      statements of sts:AssumeRole apply, if and only if no Deny applies that covered the destination or had
      the source among its principals. */
  lemma DestinationAllowedIff(stmts: seq<Json>, sourceId: string, destinationId: string, applies: Fields -> bool)
    requires sourceId != destinationId
    requires forall stmt: Json :: stmt.Obj? && Grants(stmt.fields) ==> applies(Rest(stmt))
    ensures RootArn(sourceId) != "" && RootArn(destinationId) != ""
    ensures var out := Replaced(stmts, RootArn(sourceId), RootArn(destinationId), TrustStatement(destinationId));
      Allowed(Facing(out, Requester("AWS", RootArn(destinationId))), applies)
      <==> !DeniesEither(stmts, RootArn(sourceId), RootArn(destinationId), applies)
  {
    hide Trim, RootArn, TrustStatement, Grants, Covers, Rewritten, Facing, FacingAfter, HasEffect, SomeApplies,
      RewrittenAll, Touched, DeniesEither;
    RootsAreProper(sourceId, destinationId);
    var source, destination := RootArn(sourceId), RootArn(destinationId);
    var w := Requester("AWS", destination);
    var out := Replaced(stmts, source, destination, TrustStatement(destinationId));
    var all := RewrittenAll(stmts, source, destination);
    RewrittenFacing(stmts, source, destination, w);
    FacingDenies(stmts, source, destination, applies);
    FacingSnoc(all, TrustStatement(destinationId), w);
    assert all + [] == all;
    TrustIsNoDenial(destinationId);
    SomeSnoc(Facing(all, w), Rest(TrustStatement(destinationId)), "Deny", applies);
    AppendNone(Facing(all, w));
    SomeoneAllows(stmts, sourceId, destinationId, applies);
  }

  lemma AppendNone(facing: seq<Fields>)
    ensures facing + [] == facing
  {
  }

  lemma TrustIsNoDenial(destinationId: string)
    ensures TrustStatement(destinationId).Obj? && !HasEffect(Rest(TrustStatement(destinationId)), "Deny")
  {
    hide Trim, RootArn;
    var stmt := TrustStatement(destinationId);
    assert stmt.fields["Effect"] == Str("Allow");
    RestFields(stmt, "Effect");
    AllowIsNotDeny();
  }

  lemma AllowIsNotDeny()
    ensures !EqualFold(Trim("Allow"), "Deny")
  {
    TrimIsProjection("Allow");
    assert Trimmed("Allow");
    assert ToLower("Allow")[0] != ToLower("Deny")[0];
  }

  lemma SomeoneAllows(stmts: seq<Json>, sourceId: string, destinationId: string, applies: Fields -> bool)
    requires sourceId != destinationId && RootArn(sourceId) != "" && RootArn(destinationId) != ""
    requires forall stmt: Json :: stmt.Obj? && Grants(stmt.fields) ==> applies(Rest(stmt))
    ensures var facing := Facing(Replaced(stmts, RootArn(sourceId), RootArn(destinationId),
                                          TrustStatement(destinationId)),
                                 Requester("AWS", RootArn(destinationId)));
      SomeApplies(facing, "Allow", applies)
  {
    hide Trim, RootArn, TrustStatement, Replaced, Facing, EqualFold, ParseNames;
    var out := Replaced(stmts, RootArn(sourceId), RootArn(destinationId), TrustStatement(destinationId));
    var w := Requester("AWS", RootArn(destinationId));
    var k := DestinationIsTrusted(stmts, sourceId, destinationId);
    ListedIsCovered(out[k], RootArn(destinationId));
    CoveredIsFaced(out, w, k);
    RestFields(out[k], "Effect");
    var facing := Facing(out, w);
    var i :| 0 <= i < |facing| && facing[i] == Rest(out[k]);
    assert HasEffect(facing[i], "Allow") && applies(facing[i]);
  }

  lemma ListedIsCovered(stmt: Json, who: string)
    requires ListsAws(stmt, who)
    ensures Covers(stmt, Requester("AWS", who))
  {
    hide Trim, ParseNames;
  }
}
