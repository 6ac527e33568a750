/** What the text of a credentials file means and looks like, line by line and told without the reader and the
    writer. */
module CredentialsMeaning {
  import opened Text
  import opened Wrappers
  import opened CredentialsFile

  // ------------------------------------------------------------------- lines

  predicate IsHeading(line: string) {
    var l := Trim(line);
    |l| >= 2 && l[0] == '[' && l[|l| - 1] == ']'
  }

  predicate Heads(line: string, name: string) {
    IsHeading(line) && Trim(Trim(line)[1..|Trim(line)| - 1]) == name
  }

  predicate AssignsAt(l: string, key: string, val: string, k: nat) {
    k < |l| && l[k] == '=' && '=' !in l[..k] && key == Trim(l[..k]) && val == Trim(l[k + 1..])
  }

  /** A line that is no comment and no heading, with the key before its first equals sign and the value after. */
  ghost predicate Assigns(line: string, key: string, val: string) {
    var l := Trim(line);
    && l != "" && l[0] != '#' && l[0] != ';' && !IsHeading(line)
    && exists k: nat :: AssignsAt(l, key, val, k)
  }

  ghost predicate AssignsKey(line: string, key: string) {
    exists val :: Assigns(line, key, val)
  }

  lemma AssignsOnce(l: string, key: string, val: string, k: nat)
    requires AssignsAt(l, key, val, k)
    ensures CutAt(l, '=') == Cut(l[..k], l[k + 1..], true)
  {
    CutIsUnique(l[..k], '=', l[k + 1..]);
    assert l == l[..k] + ['='] + l[k + 1..];
  }

  /** What the reader makes of a line that assigns, and of one that does not. */
  lemma AssignmentMeans(line: string, key: string, val: string)
    ensures Assigns(line, key, val)
            <==> !IsSkipped(Trim(line)) && !IsHeading(line) && CutAt(Trim(line), '=').found
                 && key == Trim(CutAt(Trim(line), '=').before) && val == Trim(CutAt(Trim(line), '=').after)
  {
    hide Trim;
    var l := Trim(line);
    var cut := CutAt(l, '=');
    if k: nat :| AssignsAt(l, key, val, k) {
      AssignsOnce(l, key, val, k);
    }
    if cut.found && key == Trim(cut.before) && val == Trim(cut.after) {
      var k := |cut.before|;
      assert l[..k] == cut.before && l[k + 1..] == cut.after && l[k] == '=';
      assert AssignsAt(l, key, val, k);
    }
  }

  /** What a line makes of the reader's state. */
  lemma FeedMeans(st: Reader, line: string)
    requires st.Open()
    ensures forall name :: Heads(line, name) ==>
      Feed(st, line) == Reader(name, if name in st.sections then st.sections else st.sections[name := map[]])
    ensures forall key, val :: Assigns(line, key, val) ==>
      Feed(st, line) == if st.current == "" then st
                        else Reader(st.current, st.sections[st.current := st.sections[st.current][key := val]])
    ensures !IsHeading(line) && (forall key, val :: !Assigns(line, key, val)) ==> Feed(st, line) == st
  {
    hide Trim, Assigns, CutAt;
    forall key, val
      ensures Assigns(line, key, val)
            <==> !IsSkipped(Trim(line)) && !IsHeading(line) && CutAt(Trim(line), '=').found
                 && key == Trim(CutAt(Trim(line), '=').before) && val == Trim(CutAt(Trim(line), '=').after)
    {
      AssignmentMeans(line, key, val);
    }
    var cut := CutAt(Trim(line), '=');
    assert Assigns(line, Trim(cut.before), Trim(cut.after)) <==>
           !IsSkipped(Trim(line)) && !IsHeading(line) && cut.found;
  }

  // ---------------------------------------------------------- what a text means

  /** The i-th line is in a section headed so: the last heading before it names it. */
  ghost predicate InSection(lines: seq<string>, i: nat, name: string) {
    i <= |lines|
    && exists h: nat :: h < i && Heads(lines[h], name) && forall m :: h < m < i ==> !IsHeading(lines[m])
  }

  ghost predicate NoHeading(lines: seq<string>) {
    forall m :: 0 <= m < |lines| ==> !IsHeading(lines[m])
  }

  ghost predicate Headed(lines: seq<string>, name: string) {
    exists h :: 0 <= h < |lines| && Heads(lines[h], name)
  }

  /** The value that a key was last given in the sections of that name. */
  ghost predicate LastGiven(lines: seq<string>, name: string, key: string, val: string, i: nat) {
    && i < |lines| && InSection(lines, i, name) && Assigns(lines[i], key, val)
    && forall j :: i < j < |lines| && InSection(lines, j, name) ==> !AssignsKey(lines[j], key)
  }

  ghost predicate Given(lines: seq<string>, name: string, key: string, val: string) {
    name != "" && exists i: nat :: LastGiven(lines, name, key, val, i)
  }

  /** The sections are those that are headed, with what was given in them. */
  ghost predicate Tells(lines: seq<string>, st: Reader) {
    && (NoHeading(lines) ==> st.current == "")
    && (!NoHeading(lines) ==> InSection(lines, |lines|, st.current))
    && (forall name :: name in st.sections <==> Headed(lines, name))
    && (forall name, key, val :: name in st.sections ==>
          (key in st.sections[name] && st.sections[name][key] == val <==> Given(lines, name, key, val)))
  }

  lemma AssignsOne(line: string, key: string, val: string, key': string, val': string)
    requires Assigns(line, key, val) && Assigns(line, key', val')
    ensures key == key' && val == val'
  {
    hide Trim, CutAt;
    AssignmentMeans(line, key, val);
    AssignmentMeans(line, key', val');
  }

  lemma SectionSnoc(front: seq<string>, line: string, i: nat, name: string)
    requires i <= |front|
    ensures InSection(front + [line], i, name) <==> InSection(front, i, name)
  {
    hide Heads, IsHeading;
    var all := front + [line];
    assert forall m :: 0 <= m < i ==> all[m] == front[m];
  }

  lemma SectionAfter(front: seq<string>, line: string, name: string)
    ensures InSection(front + [line], |front| + 1, name)
            <==> if IsHeading(line) then Heads(line, name) else InSection(front, |front|, name)
  {
    hide IsHeading, Trim;
    var all, n := front + [line], |front|;
    assert forall m :: 0 <= m < n ==> all[m] == front[m];
    assert all[n] == line;
    if h: nat :| h < n && Heads(front[h], name) && forall m :: h < m < n ==> !IsHeading(front[m]) {
      assert !IsHeading(line) ==> Heads(all[h], name) && forall m :: h < m < n + 1 ==> !IsHeading(all[m]);
    }
    if Heads(line, name) {
      assert Heads(all[n], name);
    }
    if h: nat :| h < n + 1 && Heads(all[h], name) && forall m :: h < m < n + 1 ==> !IsHeading(all[m]) {
      assert h < n ==> !IsHeading(all[n]) && Heads(front[h], name);
    }
  }

  lemma OneSection(lines: seq<string>, i: nat, a: string, b: string)
    requires InSection(lines, i, a) && InSection(lines, i, b)
    ensures a == b && !NoHeading(lines)
  {
    hide Trim;
    var h: nat :| h < i && Heads(lines[h], a) && forall m :: h < m < i ==> !IsHeading(lines[m]);
    var k: nat :| k < i && Heads(lines[k], b) && forall m :: k < m < i ==> !IsHeading(lines[m]);
    assert h == k;
  }

  lemma SectionIsHeaded(lines: seq<string>, i: nat, name: string)
    requires InSection(lines, i, name)
    ensures Headed(lines, name)
  {
    hide Heads, IsHeading;
  }

  lemma HeadedSnoc(front: seq<string>, line: string, name: string)
    ensures Headed(front + [line], name) <==> Headed(front, name) || Heads(line, name)
    ensures NoHeading(front + [line]) <==> NoHeading(front) && !IsHeading(line)
  {
    hide Heads, IsHeading;
    var all := front + [line];
    assert forall m :: 0 <= m < |front| ==> all[m] == front[m];
    assert all[|front|] == line;
  }

  /** A line changes what is given only if it assigns the key in the section that is open. */
  lemma GivenSnoc(front: seq<string>, line: string, name: string, key: string, val: string)
    ensures Given(front + [line], name, key, val)
            <==> if InSection(front, |front|, name) && AssignsKey(line, key)
                 then name != "" && Assigns(line, key, val)
                 else Given(front, name, key, val)
  {
    hide InSection, Assigns;
    var all, n := front + [line], |front|;
    assert all[n] == line && forall m :: 0 <= m < n ==> all[m] == front[m];
    forall i | 0 <= i <= n
      ensures InSection(all, i, name) <==> InSection(front, i, name)
    {
      SectionSnoc(front, line, i, name);
    }
    if InSection(front, n, name) && AssignsKey(line, key) {
      if Assigns(line, key, val) {
        assert LastGiven(all, name, key, val, n);
      }
      if i: nat :| LastGiven(all, name, key, val, i) {
        assert i == n;
      }
    } else {
      if i: nat :| LastGiven(front, name, key, val, i) {
        assert LastGiven(all, name, key, val, i);
      }
      if i: nat :| LastGiven(all, name, key, val, i) {
        assert i != n by { OnlyIfAssigned(all, name, key, val, n); }
        assert LastGiven(front, name, key, val, i);
      }
    }
  }

  lemma OnlyIfAssigned(lines: seq<string>, name: string, key: string, val: string, i: nat)
    ensures LastGiven(lines, name, key, val, i) ==> InSection(lines, i, name) && AssignsKey(lines[i], key)
  {
    hide InSection, Assigns;
  }

  lemma NotGivenUnheaded(lines: seq<string>, name: string, key: string, val: string)
    ensures Given(lines, name, key, val) ==> Headed(lines, name)
  {
    hide InSection, Assigns, Headed;
    if i: nat :| LastGiven(lines, name, key, val, i) {
      SectionIsHeaded(lines, i, name);
    }
  }

  lemma TellsHeading(front: seq<string>, line: string, name: string, st: Reader)
    requires st.Open() && Tells(front, st) && Heads(line, name)
    ensures Tells(front + [line],
                  Reader(name, if name in st.sections then st.sections else st.sections[name := map[]]))
  {
    hide InSection, Assigns, Headed, NoHeading, Given, Trim;
    var all := front + [line];
    var st' := Reader(name, if name in st.sections then st.sections else st.sections[name := map[]]);
    SectionAfter(front, line, name);
    HeadedSnoc(front, line, "");
    forall other
      ensures Headed(all, other) <==> other in st'.sections
    {
      HeadedSnoc(front, line, other);
    }
    forall other, key, val
      ensures Given(all, other, key, val) <==> Given(front, other, key, val)
      ensures Given(front, other, key, val) ==> Headed(front, other)
    {
      HeadingAssignsNothing(line, key);
      GivenSnoc(front, line, other, key, val);
      NotGivenUnheaded(front, other, key, val);
    }
  }

  lemma HeadingAssignsNothing(line: string, key: string)
    requires IsHeading(line)
    ensures !AssignsKey(line, key)
  {
  }

  lemma TellsOther(front: seq<string>, line: string, st: Reader)
    requires st.Open() && Tells(front, st) && !IsHeading(line)
    requires st.current == "" || forall key, val :: !Assigns(line, key, val)
    ensures Tells(front + [line], st)
  {
    hide InSection, Assigns, Headed, NoHeading, Given, Trim, IsHeading;
    var all := front + [line];
    SectionAfter(front, line, st.current);
    HeadedSnoc(front, line, "");
    forall other
      ensures Headed(all, other) <==> Headed(front, other)
    {
      HeadedSnoc(front, line, other);
    }
    forall other, key, val
      ensures Given(all, other, key, val) <==> Given(front, other, key, val)
    {
      GivenSnoc(front, line, other, key, val);
      if InSection(front, |front|, other) && other != "" {
        CurrentIsSection(front, st, other);
      }
      NamelessHasNothing(front, key, val);
      NamelessHasNothing(all, key, val);
    }
  }

  lemma NamelessHasNothing(lines: seq<string>, key: string, val: string)
    ensures !Given(lines, "", key, val)
  {
  }

  lemma CurrentIsSection(lines: seq<string>, st: Reader, name: string)
    requires Tells(lines, st) && InSection(lines, |lines|, name)
    ensures st.current == name
  {
    hide InSection, Headed, Given;
    OneSection(lines, |lines|, name, name);
    OneSection(lines, |lines|, name, st.current);
  }

  lemma TellsAssigning(front: seq<string>, line: string, st: Reader, key: string, val: string)
    requires st.Open() && Tells(front, st) && Assigns(line, key, val) && st.current != ""
    ensures Tells(front + [line],
                  Reader(st.current, st.sections[st.current := st.sections[st.current][key := val]]))
  {
    hide InSection, Assigns, Headed, NoHeading, Given, Trim, IsHeading;
    var all := front + [line];
    var st' := Reader(st.current, st.sections[st.current := st.sections[st.current][key := val]]);
    AssignsIsNoHeading(line, key, val);
    SectionAfter(front, line, st.current);
    HeadedSnoc(front, line, "");
    forall other
      ensures Headed(all, other) <==> Headed(front, other)
    {
      HeadedSnoc(front, line, other);
    }
    forall other, k, v | other in st'.sections
      ensures k in st'.sections[other] && st'.sections[other][k] == v <==> Given(all, other, k, v)
    {
      GivenSnoc(front, line, other, k, v);
      if InSection(front, |front|, other) {
        CurrentIsSection(front, st, other);
      }
      if Assigns(line, k, v) {
        AssignsOne(line, key, val, k, v);
      }
      if v' :| Assigns(line, k, v') {
        AssignsOne(line, key, val, k, v');
      }
    }
  }

  lemma AssignsIsNoHeading(line: string, key: string, val: string)
    requires Assigns(line, key, val)
    ensures !IsHeading(line) && AssignsKey(line, key)
  {
  }

  lemma TellsSnoc(front: seq<string>, line: string, st: Reader)
    requires st.Open() && Tells(front, st)
    ensures Tells(front + [line], Feed(st, line))
  {
    hide Tells, Trim, Assigns, Feed;
    FeedMeans(st, line);
    if IsHeading(line) {
      TellsHeading(front, line, Trim(Trim(line)[1..|Trim(line)| - 1]), st);
    } else if key, val :| Assigns(line, key, val) {
      if st.current == "" {
        TellsOther(front, line, st);
      } else {
        TellsAssigning(front, line, st, key, val);
      }
    } else {
      TellsOther(front, line, st);
    }
  }

  lemma {:induction false} LinesTell(lines: seq<string>)
    ensures Tells(lines, FeedAll(START, lines))
  {
    hide Tells, Feed;
    if lines == [] {
      NothingTold();
    } else {
      var front, last := lines[..|lines| - 1], lines[|lines| - 1];
      LinesTell(front);
      TellsSnoc(front, last, FeedAll(START, front));
      assert lines == front + [last];
    }
  }

  lemma NothingTold()
    ensures Tells([], START)
  {
  }

  /** Reading any text gives the sections that its lines head, each with the keys that are assigned in it and the
      values that they were last given; what comes before any heading, or under one without a name, is ignored. */
  lemma ReadingMeans(text: string, name: string, key: string, val: string)
    ensures name in Parse(text) <==> Headed(Split(text, '\n'), name)
    ensures name in Parse(text) && key in Parse(text)[name] && Parse(text)[name][key] == val
            <==> Given(Split(text, '\n'), name, key, val)
  {
    hide FeedAll, Headed, Given, NoHeading, InSection;
    LinesTell(Split(text, '\n'));
    NotGivenUnheaded(Split(text, '\n'), name, key, val);
  }

  // --------------------------------------------------------- what is printed

  /** The lines of a section, in text form. */
  function PrintedKeys(order: seq<string>, keys: Keys): string
    requires forall k :: k in order ==> k in keys
  {
    if order == [] then ""
    else
      var key := order[|order| - 1];
      PrintedKeys(order[..|order| - 1], keys) + key + " = " + keys[key] + "\n"
  }

  /** A heading and a line for each key, and an empty line before every section but the first. */
  ghost function Printed(layout: seq<Block>, sections: Sections): string
    requires Printable(layout, sections)
  {
    if layout == [] then ""
    else
      var last := layout[|layout| - 1];
      Printed(layout[..|layout| - 1], sections) + (if |layout| == 1 then "" else "\n")
      + "[" + last.name + "]\n" + PrintedKeys(last.order, sections[last.name])
  }

  lemma {:induction false} KeysArePrinted(order: seq<string>, keys: Keys)
    requires forall k :: k in order ==> k in keys
    ensures Unlines(KeyLines(order, keys)) == PrintedKeys(order, keys)
  {
    if order != [] {
      var front, key := order[..|order| - 1], order[|order| - 1];
      KeysArePrinted(front, keys);
      UnlinesAppend(KeyLines(front, keys), [KeyLine(key, keys[key])]);
      OneLine(KeyLine(key, keys[key]));
    }
  }

  lemma OneLine(line: string)
    ensures Unlines([line]) == line + "\n"
  {
    assert [line][1..] == [];
  }

  lemma BlockIsPrinted(b: Block, keys: Keys)
    requires forall k :: k in b.order ==> k in keys
    ensures Unlines(BlockLines(b, keys)) == "[" + b.name + "]\n" + PrintedKeys(b.order, keys)
  {
    hide Unlines, KeyLines;
    KeysArePrinted(b.order, keys);
    UnlinesAppend([HeaderLine(b.name)], KeyLines(b.order, keys));
    OneLine(HeaderLine(b.name));
    assert HeaderLine(b.name) + "\n" == "[" + b.name + "]\n";
  }

  /** That is what a layout is rendered as. */
  lemma {:induction false} RenderedIsPrinted(layout: seq<Block>, sections: Sections)
    requires Printable(layout, sections)
    ensures Render(layout, sections) == Printed(layout, sections)
  {
    hide Unlines, BlockLines, PrintedKeys;
    if layout == [] {
      NoLines();
    } else {
      var front, last := layout[..|layout| - 1], layout[|layout| - 1];
      var lines, gap := LayoutLines(front, sections), if |layout| == 1 then [] else [""];
      RenderedIsPrinted(front, sections);
      BlockIsPrinted(last, sections[last.name]);
      UnlinesAppend(lines, gap);
      UnlinesAppend(lines + gap, BlockLines(last, sections[last.name]));
      NoLines();
      OneLine("");
      PrintedSnoc(layout, sections, Printed(front, sections), if |layout| == 1 then "" else "\n");
    }
  }

  lemma NoLines()
    ensures Unlines([]) == ""
  {
  }

  lemma PrintedSnoc(layout: seq<Block>, sections: Sections, before: string, gap: string)
    requires Printable(layout, sections) && layout != []
    requires before == Printed(layout[..|layout| - 1], sections) && gap == if |layout| == 1 then "" else "\n"
    ensures var last := layout[|layout| - 1];
      Printed(layout, sections)
      == before + gap + ("[" + last.name + "]\n" + PrintedKeys(last.order, sections[last.name]))
  {
    hide PrintedKeys;
  }

  // ---------------------------------------------------------------- sessions

  /** The value of a key, where an absent key counts as empty. */
  predicate Says(sections: Sections, profile: string, key: string, val: string) {
    && profile in sections
    && if key in sections[profile] then sections[profile][key] == val else val == ""
  }

  /** A profile holds a session if it has both keys; the region, unless it is said, is us-east-1. */
  lemma SessionMeans(sections: Sections, profile: string, sess: ProfileSession)
    ensures SessionOf(sections, profile) == Some(sess)
            <==> && Says(sections, profile, "aws_access_key_id", sess.accessKeyId) && sess.accessKeyId != ""
                 && Says(sections, profile, "aws_secret_access_key", sess.secretAccessKey) && sess.secretAccessKey != ""
                 && Says(sections, profile, "aws_session_token", sess.sessionToken)
                 && sess.region != ""
                 && (Says(sections, profile, "region", sess.region)
                     || (Says(sections, profile, "region", "") && sess.region == "us-east-1"))
  {
  }

  /** What a profile says after a session has been written over it: just the session, except for keys that are no
      part of one. */
  lemma OverlaySays(keys: Keys, sess: ProfileSession)
    ensures var r := Overlay(keys, sess);
      && "aws_access_key_id" in r && r["aws_access_key_id"] == sess.accessKeyId
      && "aws_secret_access_key" in r && r["aws_secret_access_key"] == sess.secretAccessKey
      && ("aws_session_token" in r <==> sess.sessionToken != "")
      && ("aws_session_token" in r ==> r["aws_session_token"] == sess.sessionToken)
      && "region" in r && r["region"] == (if sess.region == "" then "us-east-1" else sess.region)
      && forall k :: k !in ["aws_access_key_id", "aws_secret_access_key", "aws_session_token", "region"] ==>
           (k in r <==> k in keys) && (k in r ==> r[k] == keys[k])
  {
    KeyNamesDiffer();
  }
}
