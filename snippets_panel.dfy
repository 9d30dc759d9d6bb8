/** The code-snippet library of the browser client
    (frontend/src/component/SnippetsPanel.js): a list of snippets mirrored
    in session storage, an add form, deletion by id, the grouping by
    category the panel displays, and the one-line preview of each snippet. */
module SnippetsPanel {
  import opened Protocol

  datatype Snippet = Snippet(id: int, name: string, code: string, category: string)

  /** The add form's fields. */
  datatype Draft = Draft(name: string, code: string, category: string)

  const EmptyDraft: Draft := Draft("", "", "General")

  /** The library seeded when session storage holds nothing. */
  const Defaults: seq<Snippet> := [
    Snippet(1, "For Loop", "for (let i = 0; i < n; i++) {\n  // code\n}", "Loops"),
    Snippet(2, "Function", "function myFunction(param) {\n  // code\n  return result;\n}", "Functions"),
    Snippet(3, "Array Map", "const result = array.map(item => {\n  return item;\n});", "Data Structures")
  ]

  // ---------------------------------------------------------------------
  // Deletion

  /** The snippets whose id is not `id`, in their order. */
  function WithoutId(s: seq<Snippet>, id: int): (r: seq<Snippet>)
    ensures |r| <= |s|
    ensures forall x :: x in r <==> x in s && x.id != id
  {
    if s == [] then []
    else (if s[0].id == id then [] else [s[0]]) + WithoutId(s[1..], id)
  }

  /** Removal works piecewise, so the kept snippets stay in order. */
  lemma {:induction false} WithoutIdAppend(a: seq<Snippet>, b: seq<Snippet>, id: int)
    ensures WithoutId(a + b, id) == WithoutId(a, id) + WithoutId(b, id)
  {
    if a == [] {
      assert a + b == b;
    } else {
      assert (a + b)[0] == a[0];
      assert (a + b)[1..] == a[1..] + b;
      WithoutIdAppend(a[1..], b, id);
    }
  }

  /** Without that id in the list nothing is removed. */
  lemma {:induction false} WithoutAbsentId(s: seq<Snippet>, id: int)
    requires forall k :: 0 <= k < |s| ==> s[k].id != id
    ensures WithoutId(s, id) == s
  {
    if s != [] {
      WithoutAbsentId(s[1..], id);
    }
  }

  // ---------------------------------------------------------------------
  // Grouping by category

  /** The categories of `s`, each once, in the order of first appearance
      (the key order of the grouping object). */
  function Categories(s: seq<Snippet>): (cs: seq<string>)
    ensures |cs| <= |s|
  {
    if s == [] then []
    else
      var cs := Categories(s[..|s| - 1]);
      var c := s[|s| - 1].category;
      if c in cs then cs else cs + [c]
  }

  /** The snippets of category `c`, in their order. */
  function InCategory(s: seq<Snippet>, c: string): (g: seq<Snippet>)
    ensures |g| <= |s|
  {
    if s == [] then []
    else InCategory(s[..|s| - 1], c) + (if s[|s| - 1].category == c then [s[|s| - 1]] else [])
  }

  /** Each category of the list is listed exactly once. */
  lemma {:induction false} CategoriesSpec(s: seq<Snippet>)
    ensures NoDup(Categories(s))
    ensures forall c :: c in Categories(s) <==> exists k :: 0 <= k < |s| && s[k].category == c
  {
    if s != [] {
      var p := s[..|s| - 1];
      CategoriesSpec(p);
      assert forall k :: 0 <= k < |p| ==> p[k] == s[k];
    }
  }

  /** A group holds the snippets of its category and nothing else. */
  lemma {:induction false} InCategorySpec(s: seq<Snippet>, c: string)
    ensures forall x :: x in InCategory(s, c) <==> x in s && x.category == c
  {
    if s != [] {
      var p := s[..|s| - 1];
      InCategorySpec(p, c);
      assert s == p + [s[|s| - 1]];
    }
  }

  /** Grouping works piecewise, so a group keeps the relative order the
      snippets have in the list. */
  lemma {:induction false} InCategoryAppend(a: seq<Snippet>, b: seq<Snippet>, c: string)
    ensures InCategory(a + b, c) == InCategory(a, c) + InCategory(b, c)
  {
    if b == [] {
      assert a + b == a;
    } else {
      var q := b[..|b| - 1];
      assert (a + b)[..|a + b| - 1] == a + q;
      assert (a + b)[|a + b| - 1] == b[|b| - 1];
      InCategoryAppend(a, q, c);
    }
  }

  /** The sum of the sizes of the groups named by `cs`. */
  function GroupTotal(s: seq<Snippet>, cs: seq<string>): nat {
    if cs == [] then 0 else |InCategory(s, cs[0])| + GroupTotal(s, cs[1..])
  }

  lemma {:induction false} GroupTotalAppend(s: seq<Snippet>, cs: seq<string>, c: string)
    ensures GroupTotal(s, cs + [c]) == GroupTotal(s, cs) + |InCategory(s, c)|
  {
    if cs == [] {
      assert cs + [c] == [c];
    } else {
      assert (cs + [c])[0] == cs[0];
      assert (cs + [c])[1..] == cs[1..] + [c];
      GroupTotalAppend(s, cs[1..], c);
    }
  }

  /** One more snippet adds one to the total exactly when its category is
      one of the (distinct) groups counted. */
  lemma {:induction false} GroupTotalSnoc(p: seq<Snippet>, x: Snippet, cs: seq<string>)
    requires NoDup(cs)
    ensures GroupTotal(p + [x], cs) == GroupTotal(p, cs) + (if x.category in cs then 1 else 0)
  {
    var s := p + [x];
    assert s[..|s| - 1] == p;
    if cs != [] {
      NoDupTail(cs);
      GroupTotalSnoc(p, x, cs[1..]);
    }
  }

  lemma InCategoryOfAbsent(s: seq<Snippet>, c: string)
    requires c !in Categories(s)
    ensures InCategory(s, c) == []
  {
    CategoriesSpec(s);
    InCategorySpec(s, c);
  }

  /** Every snippet lands in exactly one group: the group sizes add up to
      the length of the list. */
  lemma {:induction false} GroupSizesSum(s: seq<Snippet>)
    ensures GroupTotal(s, Categories(s)) == |s|
  {
    if s != [] {
      var p := s[..|s| - 1];
      var x := s[|s| - 1];
      assert s == p + [x];
      GroupSizesSum(p);
      var cp := Categories(p);
      CategoriesSpec(p);
      GroupTotalSnoc(p, x, cp);
      if x.category !in cp {
        GroupTotalAppend(s, cp, x.category);
        InCategoryOfAbsent(p, x.category);
      }
    }
  }

  /** Each snippet is in the group of its own category and in no other. */
  lemma GroupOfEach(s: seq<Snippet>, x: Snippet, c: string)
    requires x in s
    ensures x.category in Categories(s)
    ensures x in InCategory(s, c) <==> c == x.category
  {
    CategoriesSpec(s);
    InCategorySpec(s, c);
    var k :| 0 <= k < |s| && s[k] == x;
  }

  lemma CategoriesSnoc(p: seq<Snippet>, x: Snippet)
    ensures Categories(p + [x]) == if x.category in Categories(p) then Categories(p) else Categories(p) + [x.category]
  {
    assert (p + [x])[..|p + [x]| - 1] == p;
  }

  lemma InCategorySnoc(p: seq<Snippet>, x: Snippet, c: string)
    ensures InCategory(p + [x], c) == InCategory(p, c) + if x.category == c then [x] else []
  {
    assert (p + [x])[..|p + [x]| - 1] == p;
  }

  /** The grouping reduce: an insertion-ordered dictionary from category to
      the snippets of that category. `order` is the dictionary's key order. */
  method GroupByCategory(s: seq<Snippet>) returns (order: seq<string>, groups: map<string, seq<Snippet>>)
    ensures order == Categories(s)
    ensures forall c :: c in groups <==> c in order
    ensures forall c :: c in groups ==> groups[c] == InCategory(s, c)
  {
    order, groups := [], map[];
    var i := 0;
    while i < |s|
      invariant 0 <= i <= |s|
      invariant order == Categories(s[..i])
      invariant forall c :: c in groups <==> c in order
      invariant forall c :: c in groups ==> groups[c] == InCategory(s[..i], c)
    {
      var x := s[i];
      assert s[..i + 1] == s[..i] + [x];
      CategoriesSnoc(s[..i], x);
      forall c ensures InCategory(s[..i + 1], c) == InCategory(s[..i], c) + if x.category == c then [x] else [] {
        InCategorySnoc(s[..i], x, c);
      }
      if x.category !in groups {
        InCategoryOfAbsent(s[..i], x.category);
        groups := groups[x.category := []];
        order := order + [x.category];
      }
      groups := groups[x.category := groups[x.category] + [x]];
      i := i + 1;
    }
    assert s[..i] == s;
  }

  // ---------------------------------------------------------------------
  // Preview

  /** Every newline replaced by a space. */
  function NewlinesToSpaces(t: string): (r: string)
    ensures |r| == |t|
    ensures forall i :: 0 <= i < |t| ==> r[i] == if t[i] == '\n' then ' ' else t[i]
  {
    if t == [] then []
    else [if t[0] == '\n' then ' ' else t[0]] + NewlinesToSpaces(t[1..])
  }

  /** The preview line: the first 50 characters with newlines shown as
      spaces, followed by an ellipsis (also when the code is shorter). */
  function Preview(code: string): (p: string)
    ensures |p| == (if |code| < 50 then |code| else 50) + 3
    ensures p[|p| - 3..] == "..."
    ensures forall i :: 0 <= i < |p| - 3 ==> p[i] == if code[i] == '\n' then ' ' else code[i]
    ensures '\n' !in p
  {
    var head := if |code| < 50 then code else code[..50];
    NewlinesToSpaces(head) + "..."
  }

  // ---------------------------------------------------------------------
  // The panel

  class Panel {
    var snippets: seq<Snippet>
    /** session storage under 'colabcode-snippets' */
    var stored: Option<seq<Snippet>>
    var draft: Draft
    var showAddForm: bool

    /** Every save writes the list through, so storage mirrors it. */
    ghost predicate Valid()
      reads this`snippets, this`stored
    {
      stored == Some(snippets)
    }

    /** Mounting the panel, load effect included: a stored list is taken as
        it is; with nothing stored the defaults are shown and stored. */
    constructor (saved: Option<seq<Snippet>>)
      ensures Valid()
      ensures snippets == saved.GetOr(Defaults)
      ensures saved.Some? ==> stored == saved
      ensures draft == EmptyDraft && !showAddForm
    {
      draft, showAddForm := EmptyDraft, false;
      match saved
      case Some(list) =>
        snippets, stored := list, saved;
      case None =>
        snippets, stored := Defaults, Some(Defaults);
    }

    /** `saveSnippets`. */
    method Save(list: seq<Snippet>)
      modifies this`snippets, this`stored
      ensures Valid()
      ensures snippets == list
    {
      snippets, stored := list, Some(list);
    }

    /** `addSnippet` with `now` as the clock reading: without a name or
        without code nothing happens; otherwise the draft becomes one more
        snippet at the end, and the form is emptied and hidden. */
    method Add(now: int)
      requires Valid()
      modifies this`snippets, this`stored, this`draft, this`showAddForm
      ensures Valid()
      ensures old(draft.name) == "" || old(draft.code) == "" ==>
                snippets == old(snippets) && draft == old(draft) && showAddForm == old(showAddForm)
      ensures old(draft.name) != "" && old(draft.code) != "" ==>
                snippets == old(snippets) + [Snippet(now, old(draft.name), old(draft.code), old(draft.category))] &&
                draft == EmptyDraft && !showAddForm
    {
      if draft.name == "" || draft.code == "" {
        return;
      }
      var snippet := Snippet(now, draft.name, draft.code, draft.category);
      Save(snippets + [snippet]);
      draft, showAddForm := EmptyDraft, false;
    }

    /** `deleteSnippet`: every snippet with that id goes. */
    method Delete(id: int)
      modifies this`snippets, this`stored
      ensures Valid()
      ensures snippets == WithoutId(old(snippets), id)
    {
      Save(WithoutId(snippets, id));
    }

    /** The "Add New" button. */
    method ToggleAddForm()
      modifies this`showAddForm
      ensures showAddForm == !old(showAddForm)
    {
      showAddForm := !showAddForm;
    }

    /** Typing into the form. */
    method EditDraft(d: Draft)
      modifies this`draft
      ensures draft == d
    {
      draft := d;
    }
  }
}
