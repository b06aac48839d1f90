/** Catalog discovery over `tools/list` pages (`discover_catalog` and
    `page_catalog` in src/mcp_client.rs). */
module Paging {
  import opened Common

  const MAX_TOOL_PAGES: nat := 20

  /** A listed tool; only its name tells it from the others. */
  datatype Entry = Entry(name: string, definition: int)

  /** What asking for one page gives: the request and the parse together. */
  datatype Page = Listed(entries: seq<Entry>, next: Option<string>) | Unusable | Exhausted

  datatype Incomplete = BrokenPage | TooManyPages

  datatype Discovery = Refused(page: Page) | Discovered(tools: seq<Entry>, incomplete: Option<Incomplete>)

  type Server = (nat, Option<string>) -> Page

  predicate Named(entries: seq<Entry>, name: string) { exists e :: e in entries && e.name == name }

  // ----------------------------------------------------------------- the loop

  function Add(tools: seq<Entry>, e: Entry): seq<Entry> { if Named(tools, e.name) then tools else tools + [e] }

  function AddAll(tools: seq<Entry>, listed: seq<Entry>): seq<Entry>
    decreases |listed|
  {
    if listed == [] then tools else AddAll(Add(tools, listed[0]), listed[1..])
  }

  function DiscoverFrom(ask: Server, limit: nat, page: nat, cursor: Option<string>, tools: seq<Entry>): Discovery
    decreases limit - page
  {
    if page >= limit then Discovered(tools, if cursor.Some? then Some(TooManyPages) else None)
    else match ask(page, cursor)
      case Exhausted => Refused(Exhausted)
      case Unusable => if page == 0 then Refused(Unusable) else Discovered(tools, Some(BrokenPage))
      case Listed(entries, next) =>
        if next.None? then Discovered(AddAll(tools, entries), None)
        else DiscoverFrom(ask, limit, page + 1, next, AddAll(tools, entries))
  }

  method AddPage(tools: seq<Entry>, listed: seq<Entry>) returns (more: seq<Entry>)
    ensures more == AddAll(tools, listed)
  {
    more := tools;
    for i := 0 to |listed|
      invariant AddAll(tools, listed) == AddAll(more, listed[i..])
    {
      assert listed[i..][1..] == listed[i + 1..];
      if !Named(more, listed[i].name) {
        more := more + [listed[i]];
      }
    }
  }

  method DiscoverCatalog(ask: Server, limit: nat) returns (d: Discovery)
    ensures d == DiscoverFrom(ask, limit, 0, None, [])
  {
    var tools: seq<Entry> := [];
    var cursor: Option<string> := None;
    var incomplete: Option<Incomplete> := None;
    var page: nat := 0;
    while page < limit
      invariant page <= limit && incomplete.None?
      invariant DiscoverFrom(ask, limit, 0, None, []) == DiscoverFrom(ask, limit, page, cursor, tools)
    {
      match ask(page, cursor) {
        case Exhausted =>
          return Refused(Exhausted);
        case Unusable =>
          if page == 0 {
            return Refused(Unusable);
          }
          return Discovered(tools, Some(BrokenPage));
        case Listed(entries, next) =>
          tools := AddPage(tools, entries);
          cursor := next;
          page := page + 1;
          if cursor.None? {
            return Discovered(tools, None);
          }
      }
    }
    if cursor.Some? {
      incomplete := Some(TooManyPages);
    }
    d := Discovered(tools, incomplete);
  }

  /** Only a complete catalog, of at most twenty pages, counts. */
  method PageCatalog(ask: Server) returns (tools: Option<seq<Entry>>)
    ensures
      var d := DiscoverFrom(ask, MAX_TOOL_PAGES, 0, None, []);
      tools == if d.Discovered? && d.incomplete.None? then Some(d.tools) else None
    ensures |Chain(ask, MAX_TOOL_PAGES, 0, None)| <= 20
  {
    ChainIsBounded(ask, MAX_TOOL_PAGES, 0, None);
    var d := DiscoverCatalog(ask, MAX_TOOL_PAGES);
    tools := if d.Discovered? && d.incomplete.None? then Some(d.tools) else None;
  }

  // ------------------------------------------------------- pages concatenated

  /** The pages read in turn, each asked for with the cursor before it, up to
      the last one or the first that lists nothing. */
  function Chain(ask: Server, limit: nat, page: nat, cursor: Option<string>): seq<Page>
    decreases limit - page
  {
    if page >= limit then []
    else
      var p := ask(page, cursor);
      if p.Listed? && p.next.Some? then [p] + Chain(ask, limit, page + 1, p.next) else [p]
  }

  lemma {:induction false} ChainIsBounded(ask: Server, limit: nat, page: nat, cursor: Option<string>)
    requires page <= limit
    ensures |Chain(ask, limit, page, cursor)| <= limit - page
    decreases limit - page
  {
    if page < limit {
      var p := ask(page, cursor);
      if p.Listed? && p.next.Some? {
        ChainIsBounded(ask, limit, page + 1, p.next);
      }
    }
  }

  function Entries(pages: seq<Page>): seq<Entry> {
    if pages == [] then [] else (if pages[0].Listed? then pages[0].entries else []) + Entries(pages[1..])
  }

  /** The entry at `k` is the first under its name. */
  predicate IsFirst(entries: seq<Entry>, k: nat)
    requires k < |entries|
  {
    !Named(entries[..k], entries[k].name)
  }

  lemma {:induction false} NamedAppended(a: seq<Entry>, b: seq<Entry>, name: string)
    ensures Named(a + b, name) <==> Named(a, name) || Named(b, name)
  {
    if Named(a, name) {
      var e :| e in a && e.name == name;
      assert e in a + b;
    }
    if Named(b, name) {
      var e :| e in b && e.name == name;
      assert e in a + b;
    }
  }

  lemma {:induction false} NamedAdded(tools: seq<Entry>, e: Entry, name: string)
    ensures Named(Add(tools, e), name) <==> Named(tools, name) || e.name == name
  {
    NamedAppended(tools, [e], name);
    assert e in [e];
  }

  lemma {:induction false} NamesKept(tools: seq<Entry>, listed: seq<Entry>, name: string)
    ensures Named(AddAll(tools, listed), name) <==> Named(tools, name) || Named(listed, name)
    decreases |listed|
  {
    if listed != [] {
      NamesKept(Add(tools, listed[0]), listed[1..], name);
      NamedAdded(tools, listed[0], name);
      NamedAppended([listed[0]], listed[1..], name);
      assert listed == [listed[0]] + listed[1..] && listed[0] in [listed[0]];
    }
  }

  predicate OneEach(tools: seq<Entry>) {
    forall i, j :: 0 <= i < j < |tools| ==> tools[i].name != tools[j].name
  }

  lemma {:induction false} NamesDistinct(tools: seq<Entry>, listed: seq<Entry>)
    requires OneEach(tools)
    ensures OneEach(AddAll(tools, listed))
    decreases |listed|
  {
    if listed != [] {
      assert forall i :: 0 <= i < |tools| ==> tools[i] in tools;
      NamesDistinct(Add(tools, listed[0]), listed[1..]);
    }
  }

  lemma {:induction false} FirstListingWins(tools: seq<Entry>, listed: seq<Entry>, t: Entry)
    ensures t in AddAll(tools, listed) <==>
      t in tools || exists k :: 0 <= k < |listed| && listed[k] == t && IsFirst(listed, k) && !Named(tools, t.name)
    decreases |listed|
  {
    if listed != [] {
      var head, rest, more := listed[0], listed[1..], Add(tools, listed[0]);
      FirstListingWins(more, rest, t);
      NamedAdded(tools, head, t.name);
      forall k | 0 <= k < |rest| && rest[k].name != head.name ensures IsFirst(listed, k + 1) == IsFirst(rest, k) {
        NamedAppended([head], rest[..k], rest[k].name);
        assert listed[..k + 1] == [head] + rest[..k];
      }
      if k :| 0 <= k < |rest| && rest[k] == t && IsFirst(rest, k) && !Named(more, t.name) {
        assert listed[k + 1] == t && IsFirst(listed, k + 1);
      }
      if k :| 0 <= k < |listed| && listed[k] == t && IsFirst(listed, k) && !Named(tools, t.name) {
        if k > 0 {
          assert head in listed[..k];
          assert rest[k - 1] == t && IsFirst(rest, k - 1);
        }
      }
      assert IsFirst(listed, 0);
    }
  }

  lemma {:induction false} AddAllConcat(tools: seq<Entry>, a: seq<Entry>, b: seq<Entry>)
    ensures AddAll(tools, a + b) == AddAll(AddAll(tools, a), b)
    decreases |a|
  {
    if a == [] {
      assert a + b == b;
    } else {
      assert (a + b)[0] == a[0] && (a + b)[1..] == a[1..] + b;
      AddAllConcat(Add(tools, a[0]), a[1..], b);
    }
  }

  /** What the pages read amount to, from a page on. */
  predicate Concludes(pages: seq<Page>, page: nat, tools: seq<Entry>, d: Discovery)
    requires pages != []
  {
    var last := pages[|pages| - 1];
    if last.Exhausted? || (last.Unusable? && page + |pages| == 1) then d == Refused(last)
    else d == Discovered(AddAll(tools, Entries(pages)),
                         if last.Unusable? then Some(BrokenPage)
                         else if last.next.Some? then Some(TooManyPages)
                         else None)
  }

  function LastPage(p: Page, page: nat, tools: seq<Entry>): Discovery {
    match p
    case Exhausted => Refused(Exhausted)
    case Unusable => if page == 0 then Refused(Unusable) else Discovered(tools, Some(BrokenPage))
    case Listed(entries, next) => Discovered(AddAll(tools, entries), if next.Some? then Some(TooManyPages) else None)
  }

  lemma {:induction false} ConcludesOne(p: Page, page: nat, tools: seq<Entry>)
    ensures Concludes([p], page, tools, LastPage(p, page, tools))
  {
    assert [p][1..] == [];
    assert Entries([p]) == if p.Listed? then p.entries else [];
  }

  lemma {:induction false} ConcludesMore(p: Page, pages: seq<Page>, page: nat, tools: seq<Entry>, d: Discovery)
    requires p.Listed? && pages != [] && Concludes(pages, page + 1, AddAll(tools, p.entries), d)
    ensures Concludes([p] + pages, page, tools, d)
  {
    assert ([p] + pages)[1..] == pages;
    AddAllConcat(tools, p.entries, Entries(pages));
    assert Entries([p] + pages) == p.entries + Entries(pages);
  }

  lemma {:induction false} ChainShape(ask: Server, limit: nat, page: nat, cursor: Option<string>)
    requires page < limit
    ensures
      var pages := Chain(ask, limit, page, cursor);
      && 0 < |pages| <= limit - page
      && forall i :: 0 <= i < |pages| - 1 ==> pages[i].Listed?
    decreases limit - page
  {
    var p := ask(page, cursor);
    if p.Listed? && p.next.Some? && page + 1 < limit {
      ChainShape(ask, limit, page + 1, p.next);
    }
  }

  lemma {:induction false} DiscoveryConcludes(ask: Server, limit: nat, page: nat, cursor: Option<string>,
                                              tools: seq<Entry>)
    requires page < limit
    ensures Chain(ask, limit, page, cursor) != []
    ensures Concludes(Chain(ask, limit, page, cursor), page, tools, DiscoverFrom(ask, limit, page, cursor, tools))
    decreases limit - page
  {
    var p, d := ask(page, cursor), DiscoverFrom(ask, limit, page, cursor, tools);
    if p.Listed? && p.next.Some? && page + 1 < limit {
      var more := AddAll(tools, p.entries);
      DiscoveryConcludes(ask, limit, page + 1, p.next, more);
      ConcludesMore(p, Chain(ask, limit, page + 1, p.next), page, tools, d);
    } else {
      assert Chain(ask, limit, page, cursor) == [p];
      ConcludesOne(p, page, tools);
      if p.Listed? && p.next.Some? {
        var more := AddAll(tools, p.entries);
        assert DiscoverFrom(ask, limit, page + 1, p.next, more) == Discovered(more, Some(TooManyPages));
      }
    }
  }

  /** Discovery is all the pages concatenated, keeping the first listing of each
      name; it is complete exactly when every page was listed and the last one
      allowed named no further one. */
  lemma {:induction false} DiscoveryRefinesConcatenation(ask: Server, limit: nat, pages: seq<Page>, d: Discovery)
    requires limit > 0 && pages == Chain(ask, limit, 0, None) && d == DiscoverFrom(ask, limit, 0, None, [])
    ensures 0 < |pages| <= limit
    ensures d.Discovered? ==> d.tools == AddAll([], Entries(pages))
    ensures d.Discovered? && d.incomplete.None? <==>
      (forall i :: 0 <= i < |pages| ==> pages[i].Listed?) && pages[|pages| - 1].next.None?
  {
    ChainShape(ask, limit, 0, None);
    DiscoveryConcludes(ask, limit, 0, None, []);
  }

  /** The tools discovered are exactly the first listing of each name. */
  lemma {:induction false} DiscoveredOnce(ask: Server, limit: nat)
    requires limit > 0 && DiscoverFrom(ask, limit, 0, None, []).Discovered?
    ensures
      var tools := DiscoverFrom(ask, limit, 0, None, []).tools;
      var listed := Entries(Chain(ask, limit, 0, None));
      && OneEach(tools)
      && (forall name :: Named(tools, name) <==> Named(listed, name))
      && (forall t :: t in tools <==> exists k :: 0 <= k < |listed| && listed[k] == t && IsFirst(listed, k))
  {
    DiscoveryRefinesConcatenation(ask, limit, Chain(ask, limit, 0, None), DiscoverFrom(ask, limit, 0, None, []));
    var listed := Entries(Chain(ask, limit, 0, None));
    NamesDistinct([], listed);
    forall name ensures Named(AddAll([], listed), name) <==> Named(listed, name) {
      NamesKept([], listed, name);
    }
    forall t
      ensures t in AddAll([], listed) <==> exists k :: 0 <= k < |listed| && listed[k] == t && IsFirst(listed, k)
    {
      FirstListingWins([], listed, t);
    }
  }
}
