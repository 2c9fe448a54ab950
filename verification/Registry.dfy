/** diagnose/registry.go: tools by category, with a flat index by name. */
module Registry {

  datatype Scope = LocalScope | RemoteScope

  datatype Tool = Tool(name: string, description: string, scope: Scope, supportedOS: seq<string>)

  datatype Category = Category(name: string, plugin: string, description: string, scope: Scope, tools: seq<Tool>)

  predicate SupportsOS(t: Tool, goos: string) {
    t.supportedOS == [] || goos in t.supportedOS
  }

  predicate Contains(s: string, sub: string) {
    exists i | 0 <= i <= |s| :: sub <= s[i..]
  }

  /** lower stands for strings.ToLower. */
  predicate CategorySupportsOS(lower: string -> string, cat: Category, goos: string) {
    var desc := lower(cat.description);
    if Contains(desc, "linux only.") then goos == "linux"
    else if Contains(desc, "darwin only.") || Contains(desc, "macos only.") then goos == "darwin"
    else if Contains(desc, "windows only.") then goos == "windows"
    else true
  }

  // ----- the registry as a value -----

  datatype State = State(categories: map<string, Category>, toolIndex: map<string, Tool>)

  const EMPTY := State(map[], map[])

  datatype Op =
    | Register(category: string, tool: Tool)
    | RegisterCategory(name: string, plugin: string, description: string, scope: Scope)

  function CategoryFor(s: State, name: string, fallback: Category): Category {
    if name in s.categories then s.categories[name] else fallback
  }

  function Do(s: State, op: Op): State {
    match op
    case Register(category, tool) =>
      if tool.name in s.toolIndex then s
      else
        var cat := CategoryFor(s, category, Category(category, category, "", tool.scope, []));
        State(s.categories[category := cat.(tools := cat.tools + [tool])], s.toolIndex[tool.name := tool])
    case RegisterCategory(name, plugin, description, scope) =>
      var cat := CategoryFor(s, name, Category(name, "", "", scope, []));
      s.(categories := s.categories[name := cat.(plugin := plugin, description := description, scope := scope)])
  }

  /** What a registration changes, field by field: a taken name nothing; otherwise the tool goes
      behind the tools of its category, which is made with the category's name for its plugin and
      the scope of the tool if it is new. */
  ghost predicate Registered(s: State, category: string, tool: Tool, r: State) {
    if tool.name in s.toolIndex then r == s
    else
      && r.toolIndex == s.toolIndex[tool.name := tool]
      && r.categories.Keys == s.categories.Keys + {category}
      && (forall c | c in s.categories && c != category :: r.categories[c] == s.categories[c])
      && var cat := r.categories[category];
         if category in s.categories then
           var was := s.categories[category];
           && cat.tools == was.tools + [tool]
           && cat.name == was.name && cat.plugin == was.plugin && cat.description == was.description && cat.scope == was.scope
         else
           cat.tools == [tool] && cat.name == category && cat.plugin == category && cat.description == "" && cat.scope == tool.scope
  }

  /** The category gets the given plugin, description and scope; its tools stay. */
  ghost predicate Described(s: State, name: string, plugin: string, description: string, scope: Scope, r: State) {
    && r.toolIndex == s.toolIndex
    && r.categories.Keys == s.categories.Keys + {name}
    && (forall c | c in s.categories && c != name :: r.categories[c] == s.categories[c])
    && var cat := r.categories[name];
       && cat.plugin == plugin && cat.description == description && cat.scope == scope
       && cat.tools == (if name in s.categories then s.categories[name].tools else [])
       && cat.name == (if name in s.categories then s.categories[name].name else name)
  }

  lemma {:induction false} RegisterIsRegistered(s: State, category: string, tool: Tool)
    ensures Registered(s, category, tool, Do(s, Register(category, tool)))
  {}

  lemma {:induction false} RegisterCategoryDescribes(s: State, name: string, plugin: string, description: string, scope: Scope)
    ensures Described(s, name, plugin, description, scope, Do(s, RegisterCategory(name, plugin, description, scope)))
  {}

  function Run(ops: seq<Op>): State {
    if ops == [] then EMPTY else Do(Run(ops[..|ops| - 1]), ops[|ops| - 1])
  }

  /** The i-th tool of category c. */
  predicate IsSlot(s: State, c: string, i: nat) {
    c in s.categories && i < |s.categories[c].tools|
  }

  function ToolAt(s: State, c: string, i: nat): Tool
    requires IsSlot(s, c, i)
  {
    s.categories[c].tools[i]
  }

  ghost predicate ListedAreIndexed(s: State) {
    forall c, i: nat | IsSlot(s, c, i) ::
      ToolAt(s, c, i).name in s.toolIndex && s.toolIndex[ToolAt(s, c, i).name] == ToolAt(s, c, i)
  }

  ghost predicate IndexedAreListed(s: State) {
    forall n | n in s.toolIndex ::
      s.toolIndex[n].name == n && exists c, i: nat :: IsSlot(s, c, i) && ToolAt(s, c, i) == s.toolIndex[n]
  }

  ghost predicate NamesUnique(s: State) {
    forall c, i: nat, d, j: nat | IsSlot(s, c, i) && IsSlot(s, d, j) ::
      ToolAt(s, c, i).name == ToolAt(s, d, j).name ==> c == d && i == j
  }

  /** The index holds exactly the tools of the category lists, and no name occurs twice. */
  ghost predicate IndexExact(s: State) {
    ListedAreIndexed(s) && IndexedAreListed(s) && NamesUnique(s)
  }

  /** The number of tools in the given categories. */
  ghost function ToolsIn(cats: map<string, Category>, names: set<string>): nat
    requires names <= cats.Keys
  {
    if names == {} then 0 else var n :| n in names; |cats[n].tools| + ToolsIn(cats, names - {n})
  }

  /** The index has as many entries as there are tools over all categories. */
  ghost predicate Counted(s: State) {
    |s.toolIndex| == ToolsIn(s.categories, s.categories.Keys)
  }

  lemma {:induction false} ToolsInWithout(cats: map<string, Category>, names: set<string>, n: string)
    requires names <= cats.Keys && n in names
    ensures ToolsIn(cats, names) == |cats[n].tools| + ToolsIn(cats, names - {n})
    decreases |names|
  {
    var m :| m in names && ToolsIn(cats, names) == |cats[m].tools| + ToolsIn(cats, names - {m});
    if m != n {
      ToolsInWithout(cats, names - {m}, n);
      ToolsInWithout(cats, names - {n}, m);
      assert names - {m} - {n} == names - {n} - {m};
    }
  }

  lemma {:induction false} ToolsInSame(a: map<string, Category>, b: map<string, Category>, names: set<string>)
    requires names <= a.Keys && names <= b.Keys
    requires forall n | n in names :: a[n].tools == b[n].tools
    ensures ToolsIn(a, names) == ToolsIn(b, names)
    decreases |names|
  {
    if names != {} {
      var n :| n in names;
      ToolsInWithout(a, names, n);
      ToolsInWithout(b, names, n);
      ToolsInSame(a, b, names - {n});
    }
  }

  lemma {:induction false} ToolsInUpdate(cats: map<string, Category>, n: string, cat: Category)
    ensures var after := cats[n := cat];
            ToolsIn(after, after.Keys) ==
            ToolsIn(cats, cats.Keys) - (if n in cats then |cats[n].tools| else 0) + |cat.tools|
  {
    var after := cats[n := cat];
    ToolsInWithout(after, after.Keys, n);
    var rest := after.Keys - {n};
    ToolsInSame(after, cats, rest);
    if n in cats {
      ToolsInWithout(cats, cats.Keys, n);
      assert cats.Keys - {n} == rest;
    } else {
      assert cats.Keys == rest;
    }
  }

  /** An operation keeps every listed tool where it is and lists at most one more. */
  lemma {:induction false} SlotsAfter(s: State, op: Op)
    ensures var after := Do(s, op);
            && (forall c, i: nat | IsSlot(s, c, i) :: IsSlot(after, c, i) && ToolAt(after, c, i) == ToolAt(s, c, i))
            && (forall c, i: nat | IsSlot(after, c, i) && !IsSlot(s, c, i) ::
                  op.Register? && op.tool.name !in s.toolIndex && ToolAt(after, c, i) == op.tool
                  && c == op.category && i == if c in s.categories then |s.categories[c].tools| else 0)
  {}

  lemma {:induction false} StepIndexes(s: State, op: Op)
    requires ListedAreIndexed(s)
    ensures ListedAreIndexed(Do(s, op))
  {
    SlotsAfter(s, op);
  }

  lemma {:induction false} StepLists(s: State, op: Op)
    requires IndexedAreListed(s)
    ensures IndexedAreListed(Do(s, op))
  {
    SlotsAfter(s, op);
    var after := Do(s, op);
    if op.Register? && op.tool.name !in s.toolIndex {
      var i := if op.category in s.categories then |s.categories[op.category].tools| else 0;
      assert IsSlot(after, op.category, i) && ToolAt(after, op.category, i) == op.tool;
    }
    forall n | n in s.toolIndex
      ensures exists c, i: nat :: IsSlot(after, c, i) && ToolAt(after, c, i) == s.toolIndex[n]
    {
      var c, i: nat :| IsSlot(s, c, i) && ToolAt(s, c, i) == s.toolIndex[n];
      assert IsSlot(after, c, i);
    }
  }

  lemma {:induction false} StepKeepsIndex(s: State, op: Op)
    requires IndexExact(s)
    ensures IndexExact(Do(s, op))
  {
    StepIndexes(s, op);
    StepLists(s, op);
    SlotsAfter(s, op);
  }

  lemma {:induction false} StepKeepsCount(s: State, op: Op)
    requires Counted(s)
    ensures Counted(Do(s, op))
  {
    match op
    case Register(category, tool) =>
      if tool.name !in s.toolIndex {
        var cat := CategoryFor(s, category, Category(category, category, "", tool.scope, []));
        ToolsInUpdate(s.categories, category, cat.(tools := cat.tools + [tool]));
      }
    case RegisterCategory(name, plugin, description, scope) =>
      var cat := CategoryFor(s, name, Category(name, "", "", scope, []));
      ToolsInUpdate(s.categories, name, cat.(plugin := plugin, description := description, scope := scope));
  }

  /** In every registry that registrations can build, the index is exact and ToolCount is the
      number of tools over all categories. */
  lemma {:induction false} RunKeepsIndex(ops: seq<Op>)
    ensures IndexExact(Run(ops))
    ensures Counted(Run(ops))
  {
    if ops != [] {
      RunKeepsIndex(ops[..|ops| - 1]);
      StepKeepsIndex(Run(ops[..|ops| - 1]), ops[|ops| - 1]);
      StepKeepsCount(Run(ops[..|ops| - 1]), ops[|ops| - 1]);
    }
  }

  function Filtered(tools: seq<Tool>, goos: string): seq<Tool> {
    if tools == [] then []
    else
      var n := |tools| - 1;
      Filtered(tools[..n], goos) + if SupportsOS(tools[n], goos) then [tools[n]] else []
  }

  lemma {:induction false} FilteredHolds(tools: seq<Tool>, goos: string, t: Tool)
    ensures t in Filtered(tools, goos) <==> t in tools && SupportsOS(t, goos)
  {
    if tools != [] {
      var n := |tools| - 1;
      FilteredHolds(tools[..n], goos, t);
      assert tools == tools[..n] + [tools[n]];
    }
  }

  /** A list is filtered tool by tool ... */
  lemma {:induction false} FilteredOne(tools: seq<Tool>, t: Tool, goos: string)
    ensures Filtered(tools + [t], goos) ==
            Filtered(tools, goos) + if t.supportedOS == [] || goos in t.supportedOS then [t] else []
  {
    var all := tools + [t];
    assert all[..|all| - 1] == tools && all[|all| - 1] == t;
  }

  /** ... so the order of the tools stays. */
  lemma {:induction false} FilteredAppends(a: seq<Tool>, b: seq<Tool>, goos: string)
    ensures Filtered(a + b, goos) == Filtered(a, goos) + Filtered(b, goos)
    decreases |b|
  {
    if b == [] {
      assert a + b == a;
    } else {
      var init, last := b[..|b| - 1], b[|b| - 1];
      FilteredAppends(a, init, goos);
      FilteredOne(a + init, last, goos);
      FilteredOne(init, last, goos);
      assert a + b == a + init + [last] && b == init + [last];
    }
  }

  // ----- which tools are offered, by their fields -----

  ghost predicate Mentions(text: string, phrase: string) {
    exists a, b :: text == a + phrase + b
  }

  lemma {:induction false} ContainsIff(text: string, phrase: string)
    ensures Contains(text, phrase) <==> Mentions(text, phrase)
  {
    if Contains(text, phrase) {
      var i :| 0 <= i <= |text| && phrase <= text[i..];
      assert text == text[..i] + phrase + text[i + |phrase|..];
    }
    if Mentions(text, phrase) {
      var a, b :| text == a + phrase + b;
      assert text[|a|..] == phrase + b;
    }
  }

  /** A category whose description, in lower case, names the only system it is for, is for that
      system. */
  ghost predicate OffersOn(description: string, goos: string) {
    if Mentions(description, "linux only.") then goos == "linux"
    else if Mentions(description, "darwin only.") || Mentions(description, "macos only.") then goos == "darwin"
    else if Mentions(description, "windows only.") then goos == "windows"
    else true
  }

  lemma {:induction false} CategorySupportsIff(lower: string -> string, cat: Category, goos: string)
    ensures CategorySupportsOS(lower, cat, goos) <==> OffersOn(lower(cat.description), goos)
  {
    var d := lower(cat.description);
    ContainsIff(d, "linux only.");
    ContainsIff(d, "darwin only.");
    ContainsIff(d, "macos only.");
    ContainsIff(d, "windows only.");
  }

  /** The tool is listed in the category, and both are for the system. */
  ghost predicate Offered(s: State, lower: string -> string, c: string, t: Tool, goos: string) {
    && c in s.categories && t in s.categories[c].tools
    && (t.supportedOS == [] || goos in t.supportedOS)
    && OffersOn(lower(s.categories[c].description), goos)
  }

  lemma {:induction false} ToolsForOSAreOffered(s: State, lower: string -> string, c: string, goos: string)
    ensures forall t: Tool :: t in ToolsForOS(s, lower, c, goos) <==> Offered(s, lower, c, t, goos)
  {
    if c in s.categories {
      CategorySupportsIff(lower, s.categories[c], goos);
      forall t: Tool ensures t in Filtered(s.categories[c].tools, goos) <==> t in s.categories[c].tools && SupportsOS(t, goos) {
        FilteredHolds(s.categories[c].tools, goos, t);
      }
    }
  }

  function ToolsForOS(s: State, lower: string -> string, plugin: string, goos: string): seq<Tool> {
    if plugin !in s.categories || !CategorySupportsOS(lower, s.categories[plugin], goos) then []
    else Filtered(s.categories[plugin].tools, goos)
  }

  // ----- the registry object -----

  class ToolRegistry {
    var categories: map<string, Category>
    var toolIndex: map<string, Tool>
    const lower: string -> string

    function View(): State
      reads this
    {
      State(categories, toolIndex)
    }

    constructor (lower: string -> string)
      ensures Valid() && View() == EMPTY && this.lower == lower
    {
      categories, toolIndex := map[], map[];
      this.lower := lower;
    }

    /** What every registration keeps; see RunKeepsIndex. */
    ghost predicate Valid()
      reads this
    {
      IndexExact(View()) && Counted(View())
    }

    method Register(category: string, tool: Tool)
      requires Valid()
      modifies this
      ensures Valid() && View() == Do(old(View()), Op.Register(category, tool))
      ensures Registered(old(View()), category, tool, View())
    {
      RegisterIsRegistered(View(), category, tool);
      StepKeepsIndex(View(), Op.Register(category, tool));
      StepKeepsCount(View(), Op.Register(category, tool));
      if tool.name in toolIndex {
        return;
      }
      var cat := Category(category, category, "", tool.scope, []);
      if category in categories {
        cat := categories[category];
      }
      categories := categories[category := cat.(tools := cat.tools + [tool])];
      toolIndex := toolIndex[tool.name := tool];
    }

    method RegisterCategory(name: string, plugin: string, description: string, scope: Scope)
      requires Valid()
      modifies this
      ensures Valid() && View() == Do(old(View()), Op.RegisterCategory(name, plugin, description, scope))
      ensures Described(old(View()), name, plugin, description, scope, View())
    {
      RegisterCategoryDescribes(View(), name, plugin, description, scope);
      StepKeepsIndex(View(), Op.RegisterCategory(name, plugin, description, scope));
      StepKeepsCount(View(), Op.RegisterCategory(name, plugin, description, scope));
      var cat := Category(name, "", "", scope, []);
      if name in categories {
        cat := categories[name];
      }
      cat := cat.(plugin := plugin);
      cat := cat.(description := description);
      cat := cat.(scope := scope);
      categories := categories[name := cat];
    }

    method Get(name: string) returns (t: Tool, ok: bool)
      requires Valid()
      ensures ok <==> exists c, i: nat :: IsSlot(View(), c, i) && ToolAt(View(), c, i).name == name
      ensures ok ==> t.name == name && exists c, i: nat :: IsSlot(View(), c, i) && ToolAt(View(), c, i) == t
    {
      ok := name in toolIndex;
      t := if ok then toolIndex[name] else Tool("", "", LocalScope, []);
    }

    method ByPluginForOS(plugin: string, goos: string) returns (filtered: seq<Tool>)
      ensures filtered == ToolsForOS(View(), lower, plugin, goos)
      ensures forall t: Tool :: t in filtered <==> Offered(View(), lower, plugin, t, goos)
    {
      ToolsForOSAreOffered(View(), lower, plugin, goos);
      if plugin !in categories || !CategorySupportsOS(lower, categories[plugin], goos) {
        return [];
      }
      var tools := categories[plugin].tools;
      filtered := [];
      for i := 0 to |tools|
        invariant filtered == Filtered(tools[..i], goos)
      {
        assert tools[..i + 1][..i] == tools[..i];
        if SupportsOS(tools[i], goos) {
          filtered := filtered + [tools[i]];
        }
      }
      assert tools[..|tools|] == tools;
    }

    /** The length of the flat index is the number of tools over all categories. */
    method ToolCount() returns (n: nat)
      requires Valid()
      ensures n == ToolsIn(categories, categories.Keys)
    {
      n := |toolIndex|;
    }

    /** The categories are visited in whatever order the map yields; the answer does not depend
        on it: the tool is among those ByPluginForOS lists for some category. */
    method ToolSupportedOn(name: string, goos: string) returns (ok: bool)
      requires Valid()
      ensures ok <==> exists c, t :: c in categories && t in ToolsForOS(View(), lower, c, goos) && t.name == name
      ensures ok <==> exists c: string, t: Tool :: t.name == name && Offered(View(), lower, c, t, goos)
    {
      forall c ensures forall t: Tool :: t in ToolsForOS(View(), lower, c, goos) <==> Offered(View(), lower, c, t, goos) {
        ToolsForOSAreOffered(View(), lower, c, goos);
      }
      if name !in toolIndex || !SupportsOS(toolIndex[name], goos) {
        Unsupported(View(), lower, name, goos);
        return false;
      }
      var left := categories.Keys;
      while left != {}
        invariant left <= categories.Keys
        invariant forall c, i: nat | c !in left && IsSlot(View(), c, i) :: ToolAt(View(), c, i).name != name
        decreases |left|
      {
        var c :| c in left;
        var cat := categories[c];
        for i := 0 to |cat.tools|
          invariant forall j | 0 <= j < i :: cat.tools[j].name != name
        {
          if cat.tools[i].name == name {
            OwnerDecides(View(), lower, name, goos, c, i);
            return CategorySupportsOS(lower, cat, goos);
          }
        }
        left := left - {c};
      }
      assert false; // the index is exact, so some category owns the tool
      return true;
    }
  }

  lemma {:induction false} Unsupported(s: State, lower: string -> string, name: string, goos: string)
    requires IndexExact(s) && (name !in s.toolIndex || !SupportsOS(s.toolIndex[name], goos))
    ensures forall c, t | c in s.categories && t in ToolsForOS(s, lower, c, goos) :: t.name != name
  {
    forall c, t | c in s.categories && t in ToolsForOS(s, lower, c, goos) ensures t.name != name {
      FilteredHolds(s.categories[c].tools, goos, t);
      var i :| 0 <= i < |s.categories[c].tools| && s.categories[c].tools[i] == t;
      assert IsSlot(s, c, i) && ToolAt(s, c, i) == t;
    }
  }

  lemma {:induction false} OwnerDecides(s: State, lower: string -> string, name: string, goos: string, c: string, i: nat)
    requires IndexExact(s) && IsSlot(s, c, i) && ToolAt(s, c, i).name == name
    requires SupportsOS(s.toolIndex[name], goos)
    ensures CategorySupportsOS(lower, s.categories[c], goos) <==>
            exists d, t :: d in s.categories && t in ToolsForOS(s, lower, d, goos) && t.name == name
  {
    var tool := ToolAt(s, c, i);
    FilteredHolds(s.categories[c].tools, goos, tool);
    forall d, t | d in s.categories && t in ToolsForOS(s, lower, d, goos) && t.name == name ensures d == c {
      FilteredHolds(s.categories[d].tools, goos, t);
      var j :| 0 <= j < |s.categories[d].tools| && s.categories[d].tools[j] == t;
      assert IsSlot(s, d, j) && ToolAt(s, d, j).name == name;
    }
  }
}
