/** The shared credentials file: a hand-written INI reader and writer, and the
    read-modify-write that replaces one profile. */
module CredentialsFile {
  import opened Text
  import opened Wrappers

  type Keys = map<string, string>
  type Sections = map<string, Keys>

  // ------------------------------------------------------------------ reader

  /** The reader's state between two lines: the open section, and the sections so far. */
  datatype Reader = Reader(current: string, sections: Sections) {
    predicate Open() {
      current != "" ==> current in sections
    }
  }

  const START := Reader("", map[])

  predicate IsHeader(line: string) {
    line != "" && line[0] == '[' && line[|line| - 1] == ']'
  }

  predicate IsSkipped(line: string) {
    line == "" || line[0] == '#' || line[0] == ';'
  }

  function Feed(st: Reader, raw: string): (r: Reader)
    requires st.Open()
    ensures r.Open()
  {
    var line := Trim(raw);
    if IsSkipped(line) then st
    else if IsHeader(line) then
      var name := Trim(line[1..|line| - 1]);
      Reader(name, if name in st.sections then st.sections else st.sections[name := map[]])
    else if st.current == "" then st
    else
      var pair := CutAt(line, '=');
      if !pair.found then st else Put(st, Trim(pair.before), Trim(pair.after))
  }

  function Put(st: Reader, key: string, val: string): (r: Reader)
    requires st.current in st.sections
    ensures r.Open()
  {
    st.(sections := st.sections[st.current := st.sections[st.current][key := val]])
  }

  function FeedAll(st: Reader, lines: seq<string>): (r: Reader)
    requires st.Open()
    ensures r.Open()
  {
    if lines == [] then st else Feed(FeedAll(st, lines[..|lines| - 1]), lines[|lines| - 1])
  }

  /** What a file's text means. */
  function Parse(text: string): Sections {
    FeedAll(START, Split(text, '\n')).sections
  }

  method ParseIni(text: string) returns (sections: Sections)
    ensures sections == Parse(text)
  {
    sections := map[];
    var current := "";
    var lines := Split(text, '\n');
    for i := 0 to |lines|
      invariant Reader(current, sections) == FeedAll(START, lines[..i])
    {
      assert lines[..i + 1][..i] == lines[..i];
      var line := Trim(lines[i]);
      if line == "" || line[0] == '#' || line[0] == ';' {
        continue;
      }
      if line[0] == '[' && line[|line| - 1] == ']' {
        current := Trim(line[1..|line| - 1]);
        if current !in sections {
          sections := sections[current := map[]];
        }
        continue;
      }
      if current == "" {
        continue;
      }
      var pair := CutAt(line, '=');
      if !pair.found {
        continue;
      }
      sections := sections[current := sections[current][Trim(pair.before) := Trim(pair.after)]];
    }
    assert lines[..|lines|] == lines;
  }

  lemma {:induction false} FeedAllAppend(st: Reader, a: seq<string>, b: seq<string>)
    requires st.Open()
    ensures FeedAll(st, a + b) == FeedAll(FeedAll(st, a), b)
    decreases |b|
  {
    if b == [] {
      assert a + b == a;
    } else {
      assert (a + b)[..|a + b| - 1] == a + b[..|b| - 1];
      FeedAllAppend(st, a, b[..|b| - 1]);
    }
  }

  // ------------------------------------------------------------------ writer

  function KeyLine(key: string, val: string): string {
    key + " = " + val
  }

  function HeaderLine(name: string): string {
    "[" + name + "]"
  }

  /** One section of the output: its name, and its keys in output order. */
  datatype Block = Block(name: string, order: seq<string>)

  function Names(layout: seq<Block>): (names: seq<string>)
    ensures |names| == |layout|
    ensures forall i :: 0 <= i < |layout| ==> names[i] == layout[i].name
  {
    seq(|layout|, i requires 0 <= i < |layout| => layout[i].name)
  }

  /** The layout lists every section and every key of it exactly once. */
  ghost predicate Lays(layout: seq<Block>, sections: Sections) {
    && Enumerates(Names(layout), sections.Keys)
    && forall b :: b in layout ==> b.name in sections && Enumerates(b.order, sections[b.name].Keys)
  }

  ghost predicate Sorted(layout: seq<Block>) {
    && StrictlySorted(Names(layout))
    && forall b :: b in layout ==> StrictlySorted(b.order)
  }

  function KeyLines(order: seq<string>, keys: Keys): (lines: seq<string>)
    requires forall k :: k in order ==> k in keys
  {
    if order == [] then []
    else
      var key := order[|order| - 1];
      KeyLines(order[..|order| - 1], keys) + [KeyLine(key, keys[key])]
  }

  function BlockLines(b: Block, keys: Keys): seq<string>
    requires forall k :: k in b.order ==> k in keys
  {
    [HeaderLine(b.name)] + KeyLines(b.order, keys)
  }

  ghost predicate Printable(layout: seq<Block>, sections: Sections) {
    forall b :: b in layout ==> b.name in sections && forall k :: k in b.order ==> k in sections[b.name]
  }

  ghost function LayoutLines(layout: seq<Block>, sections: Sections): seq<string>
    requires Printable(layout, sections)
  {
    if layout == [] then []
    else
      var last := layout[|layout| - 1];
      LayoutLines(layout[..|layout| - 1], sections)
      + (if |layout| == 1 then [] else [""])
      + BlockLines(last, sections[last.name])
  }

  function Unlines(lines: seq<string>): string {
    if lines == [] then "" else lines[0] + "\n" + Unlines(lines[1..])
  }

  ghost function Render(layout: seq<Block>, sections: Sections): string
    requires Printable(layout, sections)
  {
    Unlines(LayoutLines(layout, sections))
  }

  lemma LaysIsPrintable(layout: seq<Block>, sections: Sections)
    requires Lays(layout, sections)
    ensures Printable(layout, sections)
  {
    forall b, k | b in layout && k in b.order
      ensures k in sections[b.name]
    {
    }
  }

  lemma {:induction false} UnlinesAppend(a: seq<string>, b: seq<string>)
    ensures Unlines(a + b) == Unlines(a) + Unlines(b)
  {
    if a == [] {
      assert a + b == b;
    } else {
      assert (a + b)[1..] == a[1..] + b;
      UnlinesAppend(a[1..], b);
      assert Unlines(a + b) == a[0] + "\n" + (Unlines(a[1..]) + Unlines(b));
    }
  }

  /** Go visits the keys of a map in any order; the exchange sort makes the result unique. */
  method SortedNames(all: set<string>) returns (names: seq<string>)
    ensures StrictlySorted(names) && Enumerates(names, all)
  {
    var rest := all;
    var found: seq<string> := [];
    while rest != {}
      invariant rest <= all
      invariant Enumerates(found, all - rest)
      decreases rest
    {
      var name :| name in rest;
      ghost var before := found;
      found := found + [name];
      rest := rest - {name};
      forall x | x in all - rest
        ensures x in found
      {
        assert x == name || x in before;
        assert found[|found| - 1] == name;
      }
    }
    var a := new string[|found|](i requires 0 <= i < |found| => found[i]);
    assert a[..] == found;
    ExchangeSort(a, all);
    names := a[..];
  }

  /** The entries before i are in place: smaller than all that follow them. */
  ghost predicate InPlace(names: seq<string>, i: nat) {
    forall p, q :: 0 <= p < i && p < q < |names| ==> Less(names[p], names[q])
  }

  ghost predicate SmallestUpTo(names: seq<string>, i: nat, j: nat) {
    i < |names| && forall q :: i < q < j && q < |names| ==> Less(names[i], names[q])
  }

  method ExchangeSort(a: array<string>, ghost all: set<string>)
    requires Enumerates(a[..], all)
    modifies a
    ensures StrictlySorted(a[..]) && Enumerates(a[..], all)
  {
    var i := 0;
    while i < a.Length
      invariant 0 <= i <= a.Length
      invariant Enumerates(a[..], all) && InPlace(a[..], i)
    {
      var j := i + 1;
      while j < a.Length
        invariant i < j <= a.Length
        invariant Enumerates(a[..], all) && InPlace(a[..], i) && SmallestUpTo(a[..], i, j)
      {
        ghost var before := a[..];
        if Less(a[j], a[i]) {
          a[i], a[j] := a[j], a[i];
          assert a[..] == Swapped(before, i, j);
          SwapStep(before, i, j, all);
        } else {
          KeepStep(before, i, j, all);
        }
        j := j + 1;
      }
      PlaceStep(a[..], i);
      i := i + 1;
    }
  }

  ghost function Swapped(names: seq<string>, i: nat, j: nat): seq<string>
    requires i < j < |names|
  {
    names[i := names[j]][j := names[i]]
  }

  lemma PlaceStep(names: seq<string>, i: nat)
    requires InPlace(names, i) && SmallestUpTo(names, i, |names|)
    ensures InPlace(names, i + 1)
  {
  }

  lemma KeepStep(names: seq<string>, i: nat, j: nat, all: set<string>)
    requires i < j < |names| && Enumerates(names, all) && SmallestUpTo(names, i, j) && !Less(names[j], names[i])
    ensures SmallestUpTo(names, i, j + 1)
  {
    LessIsTotal(names[i], names[j]);
  }

  lemma SwapStep(names: seq<string>, i: nat, j: nat, all: set<string>)
    requires i < j < |names| && Enumerates(names, all) && InPlace(names, i) && SmallestUpTo(names, i, j)
    requires Less(names[j], names[i])
    ensures Enumerates(Swapped(names, i, j), all)
    ensures InPlace(Swapped(names, i, j), i) && SmallestUpTo(Swapped(names, i, j), i, j + 1)
  {
    SwapEnumerates(names, i, j, all);
    var after := Swapped(names, i, j);
    forall q | i < q < j
      ensures Less(after[i], after[q])
    {
      LessIsTransitive(names[j], names[i], names[q]);
    }
  }

  lemma SwapEnumerates(a: seq<string>, i: nat, j: nat, all: set<string>)
    requires i < j < |a| && Enumerates(a, all)
    ensures Enumerates(Swapped(a, i, j), all)
  {
    var b := Swapped(a, i, j);
    forall x | x in all
      ensures x in b
    {
      var k :| 0 <= k < |a| && a[k] == x;
      assert b[if k == i then j else if k == j then i else k] == x;
    }
  }

  /** The blocks printed so far, for the section names visited so far. */
  ghost predicate Covers(layout: seq<Block>, names: seq<string>, sections: Sections) {
    && |layout| == |names|
    && forall p :: 0 <= p < |layout| ==>
         && layout[p].name == names[p] && names[p] in sections
         && StrictlySorted(layout[p].order) && Enumerates(layout[p].order, sections[names[p]].Keys)
  }

  lemma CoversLays(layout: seq<Block>, names: seq<string>, sections: Sections)
    requires Covers(layout, names, sections) && StrictlySorted(names) && Enumerates(names, sections.Keys)
    ensures Lays(layout, sections) && Sorted(layout)
  {
    assert Names(layout) == names;
  }

  lemma NothingRendered(sections: Sections)
    ensures Printable([], sections) && Render([], sections) == ""
  {
  }

  method WriteIni(sections: Sections) returns (text: string)
    ensures exists layout :: Lays(layout, sections) && Sorted(layout) && Printable(layout, sections)
                             && text == Render(layout, sections)
  {
    hide Printable, Lays, Sorted, Render, HeaderLine, KeyLines, Unlines, Enumerates;
    var names := SortedNames(sections.Keys);
    ghost var layout: seq<Block> := [];
    NothingRendered(sections);
    assert names[..0] == [];
    text := "";
    for i := 0 to |names|
      invariant forall x :: x in names ==> x in sections
      invariant Covers(layout, names[..i], sections) && Printable(layout, sections)
      invariant text == Render(layout, sections)
    {
      if i > 0 {
        text := text + "\n";
      }
      ghost var order;
      text, order := WriteSection(text, names[i], sections[names[i]]);
      RenderSnoc(layout, Block(names[i], order), sections);
      layout := layout + [Block(names[i], order)];
    }
    assert names[..|names|] == names;
    CoversLays(layout, names, sections);
  }

  method WriteSection(before: string, name: string, keys: Keys) returns (text: string, ghost order: seq<string>)
    ensures StrictlySorted(order) && Enumerates(order, keys.Keys)
    ensures forall k :: k in order ==> k in keys
    ensures text == before + (HeaderLine(name) + "\n") + Unlines(KeyLines(order, keys))
  {
    hide KeyLines, KeyLine, HeaderLine, Unlines;
    var names := SortedNames(keys.Keys);
    order := names;
    text := before + (HeaderLine(name) + "\n");
    ghost var heading := text;
    NoKeyLines(keys);
    assert names[..0] == [];
    for j := 0 to |names|
      invariant text == heading + Unlines(KeyLines(names[..j], keys))
    {
      KeyLinesText(names, j, keys);
      text := text + (KeyLine(names[j], keys[names[j]]) + "\n");
    }
    assert names[..|names|] == names;
  }

  lemma NoKeyLines(keys: Keys)
    ensures KeyLines([], keys) == [] && Unlines(KeyLines([], keys)) == ""
  {
  }

  lemma KeyLinesText(order: seq<string>, j: nat, keys: Keys)
    requires j < |order| && forall k :: k in order ==> k in keys
    ensures Unlines(KeyLines(order[..j + 1], keys))
         == Unlines(KeyLines(order[..j], keys)) + (KeyLine(order[j], keys[order[j]]) + "\n")
  {
    hide KeyLine;
    assert order[..j + 1][..j] == order[..j];
    var line := KeyLine(order[j], keys[order[j]]);
    UnlinesAppend(KeyLines(order[..j], keys), [line]);
    assert Unlines([line]) == line + "\n";
  }

  lemma RenderSnoc(layout: seq<Block>, b: Block, sections: Sections)
    requires Printable(layout, sections)
    requires b.name in sections && forall k :: k in b.order ==> k in sections[b.name]
    ensures Printable(layout + [b], sections)
    ensures Render(layout + [b], sections)
         == Render(layout, sections) + (if layout == [] then "" else "\n")
            + (HeaderLine(b.name) + "\n") + Unlines(KeyLines(b.order, sections[b.name]))
  {
    hide KeyLines, HeaderLine;
    assert (layout + [b])[..|layout + [b]| - 1] == layout;
    var sep: seq<string> := if layout == [] then [] else [""];
    var front := LayoutLines(layout, sections);
    UnlinesAppend(front + sep, BlockLines(b, sections[b.name]));
    UnlinesAppend(front, sep);
    BlockText(b, sections[b.name]);
    assert Unlines(sep) == if layout == [] then "" else "\n";
  }

  lemma BlockText(b: Block, keys: Keys)
    requires forall k :: k in b.order ==> k in keys
    ensures Unlines(BlockLines(b, keys)) == (HeaderLine(b.name) + "\n") + Unlines(KeyLines(b.order, keys))
  {
    hide KeyLines, HeaderLine;
    assert BlockLines(b, keys)[1..] == KeyLines(b.order, keys);
  }

  /** The written text does not depend on the order in which Go visits its maps. */
  lemma OutputIsDeterministic(a: seq<Block>, b: seq<Block>, sections: Sections)
    requires Lays(a, sections) && Sorted(a)
    requires Lays(b, sections) && Sorted(b)
    ensures a == b
  {
    SortedEnumerationIsUnique(Names(a), Names(b), sections.Keys);
    forall i | 0 <= i < |a|
      ensures a[i] == b[i]
    {
      assert Names(a)[i] == Names(b)[i];
      assert a[i] in a && b[i] in b;
      SortedEnumerationIsUnique(a[i].order, b[i].order, sections[a[i].name].Keys);
    }
  }

  // -------------------------------------------------------------- round trip

  predicate NameOk(name: string) {
    Trimmed(name) && '\n' !in name
  }

  predicate EntryOk(key: string, val: string) {
    && NameOk(key) && NameOk(val)
    && '=' !in key
    && (key != "" ==> key[0] != '#' && key[0] != ';')
    && !(key != "" && key[0] == '[' && val != "" && val[|val| - 1] == ']')
  }

  ghost predicate WellFormed(sections: Sections) {
    forall name :: name in sections ==>
      && NameOk(name)
      && (name == "" ==> sections[name] == map[])
      && forall key :: key in sections[name] ==> EntryOk(key, sections[name][key])
  }

  lemma FeedHeader(st: Reader, name: string)
    requires st.Open() && NameOk(name)
    ensures Feed(st, HeaderLine(name))
         == Reader(name, if name in st.sections then st.sections else st.sections[name := map[]])
  {
    var line := HeaderLine(name);
    TrimIsProjection(line);
    TrimIsProjection(name);
    assert line[1..|line| - 1] == name;
  }

  lemma FeedBlank(st: Reader)
    requires st.Open()
    ensures Feed(st, "") == st
  {
  }

  lemma FeedOneBlank(st: Reader)
    requires st.Open()
    ensures FeedAll(st, [""]) == st
  {
    hide Feed;
    assert [""][..0] == [];
    FeedBlank(st);
  }

  /** What trimming a printed key line leaves before and after its equals sign. */
  function Lead(key: string): string {
    if key == "" then "" else key + " "
  }

  function Trail(val: string): string {
    if val == "" then "" else " " + val
  }

  function Core(key: string, val: string): string {
    Lead(key) + "=" + Trail(val)
  }

  lemma CoreEnds(key: string, val: string)
    requires NameOk(key) && NameOk(val)
    ensures Core(key, val)[0] == if key == "" then '=' else key[0]
    ensures Core(key, val)[|Core(key, val)| - 1] == if val == "" then '=' else val[|val| - 1]
    ensures Trimmed(Core(key, val))
  {
  }

  lemma KeyLineIsPadded(key: string, val: string)
    ensures key != "" && val != "" ==> KeyLine(key, val) == Core(key, val)
    ensures key != "" && val == "" ==> KeyLine(key, val) == Core(key, val) + " "
    ensures key == "" && val != "" ==> KeyLine(key, val) == " " + Core(key, val)
    ensures key == "" && val == "" ==> KeyLine(key, val) == " " + (Core(key, val) + " ")
  {
    assert " = " == " " + "=" + " ";
    if key != "" && val != "" {
      assert KeyLine(key, val) == Core(key, val);
    } else if key != "" {
      assert KeyLine(key, val) == Core(key, val) + " ";
    } else if val != "" {
      assert KeyLine(key, val) == " " + Core(key, val);
    }
  }

  lemma TrimKeyLine(key: string, val: string)
    requires NameOk(key) && NameOk(val)
    ensures Trim(KeyLine(key, val)) == Core(key, val)
  {
    hide Core, KeyLine, TrimLeft, TrimRight;
    var core := Core(key, val);
    CoreEnds(key, val);
    KeyLineIsPadded(key, val);
    TrimIsProjection(core);
    TrimOfPadded(core);
    TrimAfterBlank(core + " ");
  }

  lemma CutKeyLine(key: string, val: string)
    requires EntryOk(key, val)
    ensures CutAt(Core(key, val), '=') == Cut(Lead(key), Trail(val), true)
    ensures Trim(Lead(key)) == key && Trim(Trail(val)) == val
  {
    assert Core(key, val) == Lead(key) + ['='] + Trail(val);
    CutIsUnique(Lead(key), '=', Trail(val));
    assert Trim(Lead(key)) == key by { TrimOfPadded(key); }
    assert Trim(Trail(val)) == val by { TrimOfPadded(val); }
  }

  lemma FeedKeyLine(st: Reader, key: string, val: string)
    requires st.current != "" && st.current in st.sections && EntryOk(key, val)
    ensures Feed(st, KeyLine(key, val)) == Put(st, key, val)
  {
    hide Core, KeyLine, Trim, CutAt, Lead, Trail;
    TrimKeyLine(key, val);
    CutKeyLine(key, val);
    CoreEnds(key, val);
    assert !IsSkipped(Core(key, val)) && !IsHeader(Core(key, val));
  }

  function Restrict(keys: Keys, order: seq<string>): Keys {
    map k | k in order && k in keys :: keys[k]
  }

  lemma {:induction false} FeedKeyLines(st: Reader, order: seq<string>, keys: Keys)
    requires st.current != "" && st.current in st.sections
    requires forall k :: k in order ==> k in keys && EntryOk(k, keys[k])
    ensures FeedAll(st, KeyLines(order, keys))
         == st.(sections := st.sections[st.current := st.sections[st.current] + Restrict(keys, order)])
  {
    hide Feed, FeedAll, EntryOk, Restrict, KeyLine, KeyLines, Put;
    if order == [] {
      FeedNothing(st, keys);
    } else {
      var front := order[..|order| - 1];
      var key := order[|order| - 1];
      FeedKeyLines(st, front, keys);
      FeedKeyLine(FeedAll(st, KeyLines(front, keys)), key, keys[key]);
      KeyLinesSnoc(st, order, keys);
      RestrictSnoc(st.sections[st.current], keys, order);
      PutLast(st, st.sections[st.current] + Restrict(keys, front), key, keys[key]);
    }
  }

  lemma FeedNothing(st: Reader, keys: Keys)
    requires st.current in st.sections
    ensures FeedAll(st, KeyLines([], keys))
            == st.(sections := st.sections[st.current := st.sections[st.current] + Restrict(keys, [])])
  {
    assert st.sections[st.current] + Restrict(keys, []) == st.sections[st.current];
    assert st.sections == st.sections[st.current := st.sections[st.current]];
  }

  lemma PutLast(st: Reader, before: Keys, key: string, val: string)
    requires st.current in st.sections
    ensures Put(st.(sections := st.sections[st.current := before]), key, val)
            == st.(sections := st.sections[st.current := before[key := val]])
  {
    assert st.sections[st.current := before][st.current := before[key := val]]
        == st.sections[st.current := before[key := val]];
  }

  lemma RestrictSnoc(base: Keys, keys: Keys, order: seq<string>)
    requires order != [] && forall k :: k in order ==> k in keys
    ensures base + Restrict(keys, order)
         == (base + Restrict(keys, order[..|order| - 1]))[order[|order| - 1] := keys[order[|order| - 1]]]
  {
    var front := order[..|order| - 1];
    var key := order[|order| - 1];
    assert order == front + [key];
    assert Restrict(keys, order) == Restrict(keys, front)[key := keys[key]];
  }

  lemma KeyLinesSnoc(st: Reader, order: seq<string>, keys: Keys)
    requires st.Open() && order != []
    requires forall k :: k in order ==> k in keys
    ensures FeedAll(st, KeyLines(order, keys))
         == Feed(FeedAll(st, KeyLines(order[..|order| - 1], keys)),
                 KeyLine(order[|order| - 1], keys[order[|order| - 1]]))
  {
    hide Feed;
    var lines := KeyLines(order, keys);
    assert lines[..|lines| - 1] == KeyLines(order[..|order| - 1], keys);
  }

  lemma FeedBlock(st: Reader, b: Block, keys: Keys)
    requires st.Open() && NameOk(b.name) && b.name !in st.sections
    requires Enumerates(b.order, keys.Keys) && (b.name == "" ==> keys == map[])
    requires forall k :: k in keys ==> EntryOk(k, keys[k])
    ensures forall k :: k in b.order ==> k in keys
    ensures FeedAll(st, BlockLines(b, keys)) == Reader(b.name, st.sections[b.name := keys])
  {
    hide Feed, KeyLines, EntryOk;
    var entered := Reader(b.name, st.sections[b.name := map[]]);
    FeedHeader(st, b.name);
    var header := [HeaderLine(b.name)];
    assert header[..0] == [];
    assert FeedAll(st, header) == entered;
    FeedAllAppend(st, header, KeyLines(b.order, keys));
    EmptyEnumeration(b.order, keys.Keys);
    assert st.sections[b.name := map[]][b.name := keys] == st.sections[b.name := keys];
    if b.name != "" {
      FeedKeyLines(entered, b.order, keys);
      assert map[] + Restrict(keys, b.order) == keys;
    } else {
      assert keys == map[];
      NoKeyLines(keys);
    }
  }

  lemma FeedLayoutSnoc(layout: seq<Block>, sections: Sections)
    requires Printable(layout, sections) && layout != []
    ensures FeedAll(START, LayoutLines(layout, sections))
         == FeedAll(FeedAll(START, LayoutLines(layout[..|layout| - 1], sections)),
                    BlockLines(layout[|layout| - 1], sections[layout[|layout| - 1].name]))
  {
    hide Feed, BlockLines;
    var last := layout[|layout| - 1];
    var before := LayoutLines(layout[..|layout| - 1], sections);
    var sep: seq<string> := if |layout| == 1 then [] else [""];
    FeedAllAppend(START, before, sep);
    FeedAllAppend(START, before + sep, BlockLines(last, sections[last.name]));
    assert sep != [] ==> sep[..0] == [];
    FeedBlank(FeedAll(START, before));
  }

  ghost function Chosen(layout: seq<Block>, sections: Sections): Sections {
    map name | name in sections && name in Names(layout) :: sections[name]
  }

  lemma ChosenSnoc(layout: seq<Block>, sections: Sections)
    requires layout != [] && layout[|layout| - 1].name in sections
    requires forall i, j :: 0 <= i < j < |layout| ==> layout[i].name != layout[j].name
    ensures var last := layout[|layout| - 1].name;
      && last !in Chosen(layout[..|layout| - 1], sections)
      && Chosen(layout, sections) == Chosen(layout[..|layout| - 1], sections)[last := sections[last]]
  {
    var front := layout[..|layout| - 1];
    assert Names(layout) == Names(front) + [layout[|layout| - 1].name];
  }

  lemma {:induction false} FeedLayout(layout: seq<Block>, sections: Sections)
    requires WellFormed(sections) && Printable(layout, sections)
    requires forall i, j :: 0 <= i < j < |layout| ==> layout[i].name != layout[j].name
    requires forall b :: b in layout ==> b.name in sections && Enumerates(b.order, sections[b.name].Keys)
    ensures FeedAll(START, LayoutLines(layout, sections)).sections == Chosen(layout, sections)
  {
    hide Feed, BlockLines;
    if layout != [] {
      var front := layout[..|layout| - 1];
      var last := layout[|layout| - 1];
      FeedLayout(front, sections);
      FeedLayoutSnoc(layout, sections);
      ChosenSnoc(layout, sections);
      FeedBlock(FeedAll(START, LayoutLines(front, sections)), last, sections[last.name]);
    }
  }

  lemma {:induction false} SplitUnlines(lines: seq<string>)
    requires forall l :: l in lines ==> '\n' !in l
    ensures Split(Unlines(lines), '\n') == lines + [""]
  {
    if lines != [] {
      CutIsUnique(lines[0], '\n', Unlines(lines[1..]));
      SplitUnlines(lines[1..]);
      assert lines + [""] == [lines[0]] + (lines[1..] + [""]);
    }
  }

  lemma {:induction false} KeyLinesHaveNoNewline(order: seq<string>, keys: Keys)
    requires forall k :: k in order ==> k in keys && EntryOk(k, keys[k])
    ensures forall l :: l in KeyLines(order, keys) ==> '\n' !in l
  {
    if order != [] {
      KeyLinesHaveNoNewline(order[..|order| - 1], keys);
    }
  }

  lemma {:induction false} LayoutLinesHaveNoNewline(layout: seq<Block>, sections: Sections)
    requires WellFormed(sections) && Printable(layout, sections)
    ensures forall l :: l in LayoutLines(layout, sections) ==> '\n' !in l
  {
    if layout != [] {
      var last := layout[|layout| - 1];
      LayoutLinesHaveNoNewline(layout[..|layout| - 1], sections);
      KeyLinesHaveNoNewline(last.order, sections[last.name]);
    }
  }

  lemma WellFormedRoundTrip(layout: seq<Block>, sections: Sections)
    requires WellFormed(sections) && Lays(layout, sections)
    ensures Printable(layout, sections) && Parse(Render(layout, sections)) == sections
  {
    hide Feed, FeedAll, LayoutLines, EntryOk;
    LaysIsPrintable(layout, sections);
    var lines := LayoutLines(layout, sections);
    LayoutLinesHaveNoNewline(layout, sections);
    SplitUnlines(lines);
    FeedAllAppend(START, lines, [""]);
    FeedOneBlank(FeedAll(START, lines));
    assert forall i, j :: 0 <= i < j < |layout| ==> Names(layout)[i] != Names(layout)[j];
    FeedLayout(layout, sections);
    assert forall name :: name in sections ==> name in Names(layout);
  }

  // ----------------------------------------------------- the reader's range

  lemma KeyStartsLine(line: string, before: string)
    requires Trimmed(line) && before <= line && Trim(before) != ""
    ensures Trim(before)[0] == line[0]
  {
    TrimRightPrefix(before);
  }

  lemma ValueEndsLine(line: string, after: string)
    requires Trimmed(line) && |after| <= |line| && after == line[|line| - |after|..] && Trim(after) != ""
    ensures Trim(after)[|Trim(after)| - 1] == line[|line| - 1]
  {
    TrimLeftSuffix(after);
  }

  lemma TrimmedPartIsNameOk(part: string)
    requires '\n' !in part
    ensures NameOk(Trim(part))
  {
    TrimIsProjection(part);
    TrimKeepsOut(part, '\n');
  }

  lemma CutEntryOk(line: string)
    requires NameOk(line) && !IsSkipped(line) && !IsHeader(line) && CutAt(line, '=').found
    ensures EntryOk(Trim(CutAt(line, '=').before), Trim(CutAt(line, '=').after))
  {
    hide Trim;
    var pair := CutAt(line, '=');
    TrimmedPartIsNameOk(pair.before);
    TrimmedPartIsNameOk(pair.after);
    TrimKeepsOut(pair.before, '=');
    if Trim(pair.before) != "" {
      KeyStartsLine(line, pair.before);
    }
    if Trim(pair.after) != "" {
      ValueEndsLine(line, pair.after);
    }
  }

  lemma FeedKeepsWellFormed(st: Reader, raw: string)
    requires st.Open() && WellFormed(st.sections) && '\n' !in raw
    ensures WellFormed(Feed(st, raw).sections)
  {
    hide EntryOk, NameOk, Trim, CutAt;
    var line := Trim(raw);
    TrimmedPartIsNameOk(raw);
    if IsSkipped(line) {
    } else if IsHeader(line) {
      InnerHasNoNewline(line);
      TrimmedPartIsNameOk(line[1..|line| - 1]);
    } else if st.current != "" && CutAt(line, '=').found {
      CutEntryOk(line);
    }
  }

  lemma InnerHasNoNewline(line: string)
    requires IsHeader(line) && NameOk(line)
    ensures '\n' !in line[1..|line| - 1]
  {
  }

  lemma {:induction false} FeedAllKeepsWellFormed(lines: seq<string>)
    requires forall l :: l in lines ==> '\n' !in l
    ensures WellFormed(FeedAll(START, lines).sections)
  {
    if lines != [] {
      FeedAllKeepsWellFormed(lines[..|lines| - 1]);
      FeedKeepsWellFormed(FeedAll(START, lines[..|lines| - 1]), lines[|lines| - 1]);
    }
  }

  /** Every file the reader accepts -- every text at all -- parses to well-formed sections. */
  lemma ParseIsWellFormed(text: string)
    ensures WellFormed(Parse(text))
  {
    FeedAllKeepsWellFormed(Split(text, '\n'));
  }

  /** Writing and reading back is the identity exactly on the well-formed sections. */
  lemma RoundTripIffWellFormed(layout: seq<Block>, sections: Sections)
    requires Lays(layout, sections)
    ensures Printable(layout, sections)
    ensures Parse(Render(layout, sections)) == sections <==> WellFormed(sections)
  {
    LaysIsPrintable(layout, sections);
    ParseIsWellFormed(Render(layout, sections));
    if WellFormed(sections) {
      WellFormedRoundTrip(layout, sections);
    }
  }

  /** No hypothesis at all: reading what the writer prints of a file gives that file's sections. */
  lemma RewritingAFileKeepsIt(text: string, layout: seq<Block>)
    requires Lays(layout, Parse(text))
    ensures Printable(layout, Parse(text))
    ensures Parse(Render(layout, Parse(text))) == Parse(text)
  {
    ParseIsWellFormed(text);
    RoundTripIffWellFormed(layout, Parse(text));
  }

  // ---------------------------------------------------------------- profiles

  const ACCESS_KEY := "aws_access_key_id"
  const SECRET_KEY := "aws_secret_access_key"
  const SESSION_TOKEN := "aws_session_token"
  const REGION := "region"
  const DEFAULT_REGION := "us-east-1"
  const KEYS := {ACCESS_KEY, SECRET_KEY, SESSION_TOKEN, REGION}

  datatype ProfileSession = ProfileSession(accessKeyId: string, secretAccessKey: string, sessionToken: string,
                                           region: string) {
    predicate HasAccessKeys() {
      accessKeyId != "" && secretAccessKey != ""
    }

    /** Temporary credentials, from SAML or STS. */
    predicate Complete() {
      HasAccessKeys() && sessionToken != ""
    }

    /** Long-lived keys without a session token. */
    predicate Static() {
      HasAccessKeys() && sessionToken == ""
    }

    function Defaulted(): ProfileSession {
      if region == "" then this.(region := DEFAULT_REGION) else this
    }
  }

  function Value(keys: Keys, key: string): string {
    if key in keys then keys[key] else ""
  }

  /** The session a profile holds, if it holds a usable one. */
  function SessionOf(sections: Sections, profile: string): Option<ProfileSession> {
    if profile !in sections then None
    else
      var keys := sections[profile];
      var sess := ProfileSession(Value(keys, ACCESS_KEY), Value(keys, SECRET_KEY), Value(keys, SESSION_TOKEN),
                                 Value(keys, REGION));
      if !sess.HasAccessKeys() then None else Some(sess.Defaulted())
  }

  /** A profile's keys after a session is laid over them; an absent token is removed. */
  function Overlay(keys: Keys, sess: ProfileSession): Keys {
    var signed := keys[ACCESS_KEY := sess.accessKeyId][SECRET_KEY := sess.secretAccessKey];
    var tokened := if sess.sessionToken != "" then signed[SESSION_TOKEN := sess.sessionToken]
        else signed - {SESSION_TOKEN};
    tokened[REGION := sess.Defaulted().region]
  }

  function Merged(sections: Sections, profile: string, sess: ProfileSession): Sections {
    sections[profile := Overlay(if profile in sections then sections[profile] else map[], sess)]
  }

  /** What a caller can check before writing: nothing in the arguments needs trimming or
      spans lines, and the profile has a name. */
  predicate Writable(profile: string, sess: ProfileSession) {
    && profile != "" && NameOk(profile)
    && NameOk(sess.accessKeyId) && NameOk(sess.secretAccessKey)
    && NameOk(sess.sessionToken) && NameOk(sess.region)
  }

  lemma KeyNamesDiffer()
    ensures ACCESS_KEY != SECRET_KEY && ACCESS_KEY != SESSION_TOKEN && ACCESS_KEY != REGION
    ensures SECRET_KEY != SESSION_TOKEN && SECRET_KEY != REGION && SESSION_TOKEN != REGION
  {
    assert ACCESS_KEY[4] != SESSION_TOKEN[4];
  }

  lemma OverlayEntries(keys: Keys, sess: ProfileSession)
    ensures var r := Overlay(keys, sess);
      && ACCESS_KEY in r && r[ACCESS_KEY] == sess.accessKeyId
      && SECRET_KEY in r && r[SECRET_KEY] == sess.secretAccessKey
      && REGION in r && r[REGION] == sess.Defaulted().region
      && (sess.sessionToken == "" ==> SESSION_TOKEN !in r)
      && (sess.sessionToken != "" ==> SESSION_TOKEN in r && r[SESSION_TOKEN] == sess.sessionToken)
      && (forall k :: k !in KEYS ==> (k in r <==> k in keys) && (k in r ==> r[k] == keys[k]))
  {
    KeyNamesDiffer();
  }

  lemma FixedKeyEntry(key: string, val: string)
    requires key in KEYS
    ensures EntryOk(key, val) <==> NameOk(val)
  {
    assert NameOk(key) && '=' !in key && key[0] != '[';
  }

  lemma OverlayEntriesOk(keys: Keys, sess: ProfileSession)
    requires forall k :: k in keys ==> EntryOk(k, keys[k])
    ensures (forall k :: k in Overlay(keys, sess) ==> EntryOk(k, Overlay(keys, sess)[k]))
      <==> NameOk(sess.accessKeyId) && NameOk(sess.secretAccessKey) && NameOk(sess.sessionToken) && NameOk(sess.region)
  {
    hide EntryOk, Overlay;
    OverlayEntries(keys, sess);
    FixedKeyEntry(ACCESS_KEY, sess.accessKeyId);
    FixedKeyEntry(SECRET_KEY, sess.secretAccessKey);
    FixedKeyEntry(SESSION_TOKEN, sess.sessionToken);
    FixedKeyEntry(REGION, sess.Defaulted().region);
  }

  lemma MergedWellFormed(sections: Sections, profile: string, sess: ProfileSession)
    requires WellFormed(sections)
    ensures WellFormed(Merged(sections, profile, sess)) <==> Writable(profile, sess)
  {
    hide EntryOk, Overlay, NameOk;
    var keys := if profile in sections then sections[profile] else map[];
    OverlayEntriesOk(keys, sess);
    OverlayEntries(keys, sess);
    var merged := Merged(sections, profile, sess);
    assert profile in merged && merged[profile] == Overlay(keys, sess) && ACCESS_KEY in merged[profile];
    if WellFormed(merged) {
      assert forall k :: k in merged[profile] ==> EntryOk(k, merged[profile][k]);
    }
  }

  /** A merged profile reads back as the session that was written, with the region defaulted
      and no stale token; its other keys and every other profile are as they were. */
  lemma MergedReadsBack(sections: Sections, profile: string, sess: ProfileSession)
    requires sess.HasAccessKeys()
    ensures SessionOf(Merged(sections, profile, sess), profile) == Some(sess.Defaulted())
    ensures forall other :: other != profile ==>
              SessionOf(Merged(sections, profile, sess), other) == SessionOf(sections, other)
    ensures forall other :: other in sections && other != profile ==>
              other in Merged(sections, profile, sess) && Merged(sections, profile, sess)[other] == sections[other]
    ensures profile in sections ==> forall key :: key in sections[profile] && key !in KEYS ==>
              key in Merged(sections, profile, sess)[profile]
                  && Merged(sections, profile, sess)[profile][key] == sections[profile][key]
    ensures sess.Static() ==> SESSION_TOKEN !in Merged(sections, profile, sess)[profile]
  {
    hide Overlay;
    OverlayEntries(if profile in sections then sections[profile] else map[], sess);
  }

  lemma ParseOfNothing()
    ensures Parse("") == map[]
  {
    assert Split("", '\n') == [""];
    assert [""][..0] == [];
    FeedBlank(START);
  }

  method LayOver(before: Keys, sess: ProfileSession) returns (keys: Keys)
    ensures keys == Overlay(before, sess)
  {
    var region := sess.region;
    if region == "" {
      region := DEFAULT_REGION;
    }
    keys := before[ACCESS_KEY := sess.accessKeyId];
    keys := keys[SECRET_KEY := sess.secretAccessKey];
    if sess.sessionToken != "" {
      keys := keys[SESSION_TOKEN := sess.sessionToken];
    } else {
      keys := keys - {SESSION_TOKEN};
    }
    keys := keys[REGION := region];
  }

  /** The file on disk: absent, or a text. */
  class File {
    var content: Option<string>

    function Sections(): Sections
      reads this
    {
      Parse(content.GetOr(""))
    }

    constructor (content: Option<string>)
      ensures this.content == content
    {
      this.content := content;
    }

    method ReadProfile(profile: string) returns (sess: Option<ProfileSession>)
      ensures sess == SessionOf(Sections(), profile)
      ensures content.None? ==> sess.None?
    {
      var sections := map[];
      if content.Some? {
        sections := ParseIni(content.value);
      } else {
        ParseOfNothing();
      }
      if profile !in sections {
        return None;
      }
      var keys := sections[profile];
      var region := Value(keys, REGION);
      var found := ProfileSession(Value(keys, ACCESS_KEY), Value(keys, SECRET_KEY), Value(keys, SESSION_TOKEN), region);
      if !found.HasAccessKeys() {
        return None;
      }
      if region == "" {
        found := found.(region := DEFAULT_REGION);
      }
      return Some(found);
    }

    /** Replace one profile. diskOk is whether creating, writing and renaming the temporary
        file all succeed; the rename is one assignment. */
    method WriteProfile(profile: string, sess: ProfileSession, diskOk: bool) returns (ok: bool)
      modifies this
      ensures ok <==> sess.accessKeyId != "" && sess.secretAccessKey != "" && diskOk
      ensures !ok ==> content == old(content)
      ensures ok ==> (Sections() == Merged(old(Sections()), profile, sess) <==> Writable(profile, sess))
      ensures ok && Writable(profile, sess) ==>
                && SessionOf(Sections(), profile)
                   == Some(sess.(region := if sess.region == "" then "us-east-1" else sess.region))
                && (forall other :: other != profile ==>
                    SessionOf(Sections(), other) == old(SessionOf(Sections(), other)))
                && (forall other :: other in old(Sections()) && other != profile ==>
                      other in Sections() && Sections()[other] == old(Sections())[other])
                && (profile in old(Sections()) ==>
                      forall key :: key in old(Sections())[profile] && key !in KEYS ==>
                        key in Sections()[profile] && Sections()[profile][key] == old(Sections())[profile][key])
                && (sess.sessionToken == "" ==> "aws_session_token" !in Sections()[profile])
    {
      hide Overlay, Parse, SessionOf, NameOk;
      if !sess.Complete() && !sess.Static() {
        return false;
      }
      var sections := map[];
      if content.Some? {
        sections := ParseIni(content.value);
      } else {
        ParseOfNothing();
      }
      ghost var before := sections;
      var keys := map[];
      if profile in sections {
        keys := sections[profile];
      }
      keys := LayOver(keys, sess);
      sections := sections[profile := keys];

      if !diskOk {
        return false;
      }
      var text := WriteIni(sections);
      content := Some(text);

      ParseIsWellFormed(old(content.GetOr("")));
      MergedWellFormed(before, profile, sess);
      MergedReadsBack(before, profile, sess);
      ghost var layout :| Lays(layout, sections) && Sorted(layout) && Printable(layout, sections)
          && text == Render(layout, sections);
      RoundTripIffWellFormed(layout, sections);
      return true;
    }
  }
}
