/**
 * The page extractor of `CrawlHtml`: one pre-order walk over the parsed
 * document that sets the title, the description and the text content and
 * collects the link seeds.
 *
 * `Step` is what the walk does at one node, `StepAll` folds it over a list of
 * nodes, and the extraction of a page is `StepAll` over `Preorder(root)`.
 * `Extractor.Visit` is the walk itself, written as the source writes it: a
 * recursive procedure that assigns to the four variables it shares with its
 * caller; its contract ties it to `StepAll`.
 */
module Extraction {
  import opened Wrappers
  import opened Strings
  import opened Html
  import opened SpiderTypes

  /** The four variables the walk writes. */
  datatype Page = Page(title: string, description: string, content: string, seeds: seq<HttpSeed>)

  const EmptyPage := Page("", "", "", [])

  /**
   * What the walk reads besides the tree: the page's tier, the page's own
   * final URL (the base for relative links) and the URL resolver. The
   * resolver stands for `handleRelativeUrl`, a wrapper over Go's URL
   * library; `None` is its error return.
   */
  datatype Context = Context(tier: int, base: string, resolve: (string, string) -> Option<string>)

  /** The resolver refused `href`; the source then ends the process. */
  datatype ExtractError = Unresolvable(base: string, href: string)

  /** `getAttr`: the value of the first attribute called `name`, or "" when there is none. */
  function GetAttr(name: string, attrs: seq<Attribute>): (v: string)
    ensures (forall i :: 0 <= i < |attrs| ==> attrs[i].key != name) ==> v == ""
    ensures forall i ::
              0 <= i < |attrs| && attrs[i].key == name && (forall j :: 0 <= j < i ==> attrs[j].key != name) ==>
              v == attrs[i].val
  {
    if attrs == [] then ""
    else if attrs[0].key == name then attrs[0].val
    else GetAttr(name, attrs[1..])
  }

  predicate IsTitle(n: Node) { n.Element? && n.data == "title" }

  predicate IsAnchor(n: Node) { n.Element? && n.data == "a" }

  predicate IsMeta(n: Node) { n.Element? && n.data == "meta" }

  /** A `<meta>` whose `name` attribute is "description". */
  predicate IsDescription(n: Node) { IsMeta(n) && GetAttr("name", n.attrs) == "description" }

  function Href(n: Node): string
    requires n.Element?
  {
    GetAttr("href", n.attrs)
  }

  /** An `<a>` whose link the walk resolves: a non-empty `href` on a page below the tier threshold. */
  predicate Follows(ctx: Context, n: Node)
  {
    IsAnchor(n) && Href(n) != "" && ctx.tier < TierThreshold
  }

  /** The title is read from the first child of `<title>`; a childless `<title>` is a nil dereference. */
  predicate TitlesHaveChild(ns: seq<Node>)
  {
    forall x :: x in ns && IsTitle(x) ==> |x.children| > 0
  }

  /** The effect of the walk at one node, before it descends into the node's children. */
  function Step(ctx: Context, n: Node, p: Page): Result<Page, ExtractError>
    requires IsTitle(n) ==> |n.children| > 0
  {
    if IsTitle(n) then
      Success(p.(title := n.children[0].data))
    else if IsAnchor(n) then
      var href := Href(n);
      if href != "" && ctx.tier < TierThreshold then
        match ctx.resolve(ctx.base, href)
        case None => Failure(Unresolvable(ctx.base, href))
        case Some(url) =>
          if HasPrefix(url, "mailto:") then Success(p)
          else Success(p.(seeds := p.seeds + [HttpSeed(url)]))
      else
        Success(p)
    else if IsMeta(n) then
      if GetAttr("name", n.attrs) == "description" then
        Success(p.(description := GetAttr("content", n.attrs)))
      else
        Success(p)
    else if n.Text? then
      Success(p.(content := p.content + n.data))
    else
      Success(p)
  }

  /** `Step` applied to each node of `ns` in turn, stopping at the first failure. */
  function StepAll(ctx: Context, ns: seq<Node>, p: Page): Result<Page, ExtractError>
    requires TitlesHaveChild(ns)
  {
    if ns == [] then Success(p)
    else
      match Step(ctx, ns[0], p)
      case Failure(e) => Failure(e)
      case Success(q) => StepAll(ctx, ns[1..], q)
  }

  /** Run the rest of the walk over `ns` after an outcome `r`. */
  function Then(ctx: Context, r: Result<Page, ExtractError>, ns: seq<Node>): Result<Page, ExtractError>
    requires TitlesHaveChild(ns)
  {
    match r
    case Failure(_) => r
    case Success(q) => StepAll(ctx, ns, q)
  }

  /** What the walk of `CrawlHtml` produces for the document `root`. */
  function Extract(ctx: Context, root: Node): Result<Page, ExtractError>
    requires TitlesHaveChild(Preorder(root))
  {
    StepAll(ctx, Preorder(root), EmptyPage)
  }

  /** Walking `a + b` is walking `a` and then, unless it failed, `b`. */
  lemma {:induction false} StepAllAppend(ctx: Context, a: seq<Node>, b: seq<Node>, p: Page)
    requires TitlesHaveChild(a + b)
    ensures TitlesHaveChild(a) && TitlesHaveChild(b)
    ensures StepAll(ctx, a + b, p) == Then(ctx, StepAll(ctx, a, p), b)
  {
    assert forall x :: x in a ==> x in a + b;
    assert forall x :: x in b ==> x in a + b;
    if a == [] {
      assert a + b == b;
    } else {
      assert (a + b)[0] == a[0];
      assert (a + b)[1..] == a[1..] + b;
      match Step(ctx, a[0], p)
      case Failure(e) =>
      case Success(q) => StepAllAppend(ctx, a[1..], b, q);
    }
  }

  /** The text of the text nodes of `ns`, concatenated in order. */
  function TextOf(ns: seq<Node>): string
  {
    if ns == [] then ""
    else (if ns[0].Text? then ns[0].data else "") + TextOf(ns[1..])
  }

  /** `content` is the concatenation, in document order, of every text node's data. */
  lemma {:induction false} ContentIsDocumentText(ctx: Context, ns: seq<Node>, p: Page)
    requires TitlesHaveChild(ns)
    requires StepAll(ctx, ns, p).Success?
    ensures StepAll(ctx, ns, p).value.content == p.content + TextOf(ns)
  {
    if ns != [] {
      assert TitlesHaveChild(ns[1..]) by {
        assert forall x :: x in ns[1..] ==> x in ns;
      }
      StepContent(ctx, ns[0], p);
      var q := Step(ctx, ns[0], p).value;
      ContentIsDocumentText(ctx, ns[1..], q);
      var t := if ns[0].Text? then ns[0].data else "";
      assert p.content + t + TextOf(ns[1..]) == p.content + (t + TextOf(ns[1..]));
    }
  }

  /** One step appends the data of a text node to `content` and leaves it alone otherwise. */
  lemma StepContent(ctx: Context, n: Node, p: Page)
    requires IsTitle(n) ==> |n.children| > 0
    requires Step(ctx, n, p).Success?
    ensures Step(ctx, n, p).value.content == p.content + (if n.Text? then n.data else "")
  {
    if !n.Text? {
      assert p.content + "" == p.content;
    }
  }

  /** `title` is set by the last `<title>` of the walk; it is unchanged when there is none. */
  lemma {:induction false} TitleIsLastTitle(ctx: Context, ns: seq<Node>, p: Page)
    requires TitlesHaveChild(ns)
    requires StepAll(ctx, ns, p).Success?
    ensures (forall i :: 0 <= i < |ns| ==> !IsTitle(ns[i])) ==> StepAll(ctx, ns, p).value.title == p.title
    ensures forall i :: 0 <= i < |ns| && IsTitle(ns[i]) && (forall j :: i < j < |ns| ==> !IsTitle(ns[j])) ==>
              StepAll(ctx, ns, p).value.title == ns[i].children[0].data
  {
    if ns != [] {
      var q := Step(ctx, ns[0], p).value;
      TitleIsLastTitle(ctx, ns[1..], q);
      forall i | 0 < i < |ns| && IsTitle(ns[i]) && (forall j :: i < j < |ns| ==> !IsTitle(ns[j]))
        ensures StepAll(ctx, ns, p).value.title == ns[i].children[0].data
      {
        assert ns[1..][i - 1] == ns[i];
      }
    }
  }

  /** `description` is the `content` of the last description `<meta>`; it is unchanged when there is none. */
  lemma {:induction false} DescriptionIsLastMeta(ctx: Context, ns: seq<Node>, p: Page)
    requires TitlesHaveChild(ns)
    requires StepAll(ctx, ns, p).Success?
    ensures (forall i :: 0 <= i < |ns| ==> !IsDescription(ns[i])) ==>
              StepAll(ctx, ns, p).value.description == p.description
    ensures forall i :: 0 <= i < |ns| && IsDescription(ns[i]) && (forall j :: i < j < |ns| ==> !IsDescription(ns[j])) ==>
              StepAll(ctx, ns, p).value.description == GetAttr("content", ns[i].attrs)
  {
    if ns != [] {
      var q := Step(ctx, ns[0], p).value;
      DescriptionIsLastMeta(ctx, ns[1..], q);
      forall i | 0 < i < |ns| && IsDescription(ns[i]) && (forall j :: i < j < |ns| ==> !IsDescription(ns[j]))
        ensures StepAll(ctx, ns, p).value.description == GetAttr("content", ns[i].attrs)
      {
        assert ns[1..][i - 1] == ns[i];
      }
    }
  }

  /** The number of `<a>` elements among `ns` that the walk resolves. */
  function FollowedCount(ctx: Context, ns: seq<Node>): nat
  {
    if ns == [] then 0
    else (if Follows(ctx, ns[0]) then 1 else 0) + FollowedCount(ctx, ns[1..])
  }

  /**
   * Seeds are only appended, at most one per followed `<a>`, and none of the
   * appended URLs starts with "mailto:".
   */
  lemma {:induction false} SeedsOnlyGrow(ctx: Context, ns: seq<Node>, p: Page)
    requires TitlesHaveChild(ns)
    requires StepAll(ctx, ns, p).Success?
    ensures var q := StepAll(ctx, ns, p).value;
      && |p.seeds| <= |q.seeds| <= |p.seeds| + FollowedCount(ctx, ns)
      && q.seeds[..|p.seeds|] == p.seeds
      && forall k :: |p.seeds| <= k < |q.seeds| ==> !HasPrefix(q.seeds[k].url, "mailto:")
  {
    if ns != [] {
      var q := Step(ctx, ns[0], p).value;
      SeedsOnlyGrow(ctx, ns[1..], q);
      assert q.seeds[..|p.seeds|] == p.seeds;
    }
  }

  /** At or above the tier threshold the walk never fails and collects no seed. */
  lemma {:induction false} NoSeedsAtThreshold(ctx: Context, ns: seq<Node>, p: Page)
    requires TitlesHaveChild(ns)
    requires ctx.tier >= TierThreshold
    ensures StepAll(ctx, ns, p).Success?
    ensures StepAll(ctx, ns, p).value.seeds == p.seeds
  {
    if ns != [] {
      NoSeedsAtThreshold(ctx, ns[1..], Step(ctx, ns[0], p).value);
    }
  }

  /** The walk fails exactly when some followed `<a>` has an `href` the resolver refuses. */
  lemma {:induction false} FailsIffUnresolvable(ctx: Context, ns: seq<Node>, p: Page)
    requires TitlesHaveChild(ns)
    ensures StepAll(ctx, ns, p).Failure? <==>
            exists i :: 0 <= i < |ns| && Follows(ctx, ns[i]) && ctx.resolve(ctx.base, Href(ns[i])).None?
  {
    if ns != [] {
      assert TitlesHaveChild(ns[1..]) by {
        assert forall x :: x in ns[1..] ==> x in ns;
      }
      StepFailsIff(ctx, ns[0], p);
      match Step(ctx, ns[0], p)
      case Failure(_) =>
        assert Follows(ctx, ns[0]) && ctx.resolve(ctx.base, Href(ns[0])).None?;
      case Success(q) =>
        FailsIffUnresolvable(ctx, ns[1..], q);
        if exists i :: 0 <= i < |ns| && Follows(ctx, ns[i]) && ctx.resolve(ctx.base, Href(ns[i])).None? {
          var i :| 0 <= i < |ns| && Follows(ctx, ns[i]) && ctx.resolve(ctx.base, Href(ns[i])).None?;
          assert i > 0;
          assert ns[1..][i - 1] == ns[i];
        }
        forall i | 0 <= i < |ns| - 1 && Follows(ctx, ns[1..][i]) && ctx.resolve(ctx.base, Href(ns[1..][i])).None?
          ensures exists j :: 0 <= j < |ns| && Follows(ctx, ns[j]) && ctx.resolve(ctx.base, Href(ns[j])).None?
        {
          assert ns[1..][i] == ns[i + 1];
        }
    }
  }

  /** One step fails exactly at a followed `<a>` whose `href` the resolver refuses. */
  lemma StepFailsIff(ctx: Context, n: Node, p: Page)
    requires IsTitle(n) ==> |n.children| > 0
    ensures Step(ctx, n, p).Failure? <==> Follows(ctx, n) && ctx.resolve(ctx.base, Href(n)).None?
  {
  }

  /** Every appended seed is the resolved `href` of some followed `<a>` of the walk. */
  lemma {:induction false} SeedsComeFromLinks(ctx: Context, ns: seq<Node>, p: Page)
    requires TitlesHaveChild(ns)
    requires StepAll(ctx, ns, p).Success?
    ensures var q := StepAll(ctx, ns, p).value;
      forall k :: |p.seeds| <= k < |q.seeds| ==>
        exists i :: 0 <= i < |ns| && Follows(ctx, ns[i]) && ctx.resolve(ctx.base, Href(ns[i])) == Some(q.seeds[k].url)
  {
    if ns != [] {
      var q := Step(ctx, ns[0], p).value;
      var r := StepAll(ctx, ns, p).value;
      assert r == StepAll(ctx, ns[1..], q).value;
      SeedsComeFromLinks(ctx, ns[1..], q);
      SeedsOnlyGrow(ctx, ns[1..], q);
      forall k | |p.seeds| <= k < |r.seeds|
        ensures exists i :: 0 <= i < |ns| && Follows(ctx, ns[i]) && ctx.resolve(ctx.base, Href(ns[i])) == Some(r.seeds[k].url)
      {
        if k < |q.seeds| {
          assert k == |p.seeds| && q.seeds == p.seeds + [r.seeds[k]];
          assert Follows(ctx, ns[0]);
        } else {
          var i :| 0 <= i < |ns| - 1 && Follows(ctx, ns[1..][i]) && ctx.resolve(ctx.base, Href(ns[1..][i])) == Some(r.seeds[k].url);
          assert ns[1..][i] == ns[i + 1];
        }
      }
    }
  }

  /** Every followed `<a>` whose resolved URL is not a "mailto:" link has its seed collected. */
  lemma {:induction false} LinksBecomeSeeds(ctx: Context, ns: seq<Node>, p: Page)
    requires TitlesHaveChild(ns)
    requires StepAll(ctx, ns, p).Success?
    ensures forall i :: 0 <= i < |ns| && Follows(ctx, ns[i]) ==>
      && ctx.resolve(ctx.base, Href(ns[i])).Some?
      && (!HasPrefix(ctx.resolve(ctx.base, Href(ns[i])).value, "mailto:") ==>
            HttpSeed(ctx.resolve(ctx.base, Href(ns[i])).value) in StepAll(ctx, ns, p).value.seeds)
  {
    if ns != [] {
      var q := Step(ctx, ns[0], p).value;
      var r := StepAll(ctx, ns, p).value;
      assert r == StepAll(ctx, ns[1..], q).value;
      LinksBecomeSeeds(ctx, ns[1..], q);
      SeedsOnlyGrow(ctx, ns[1..], q);
      forall i | 0 <= i < |ns| && Follows(ctx, ns[i])
        ensures ctx.resolve(ctx.base, Href(ns[i])).Some?
        ensures !HasPrefix(ctx.resolve(ctx.base, Href(ns[i])).value, "mailto:") ==>
                  HttpSeed(ctx.resolve(ctx.base, Href(ns[i])).value) in r.seeds
      {
        if i == 0 {
          var u := ctx.resolve(ctx.base, Href(ns[0])).value;
          if !HasPrefix(u, "mailto:") {
            assert q.seeds[|p.seeds|] == HttpSeed(u);
            assert r.seeds[|p.seeds|] == q.seeds[..|q.seeds|][|p.seeds|];
          }
        } else {
          assert ns[1..][i - 1] == ns[i];
        }
      }
    }
  }

  /**
   * The closure `f` of `CrawlHtml` and the four variables it shares with its
   * caller, which it assigns as it walks.
   */
  class Extractor {
    const ctx: Context
    var title: string
    var description: string
    var content: string
    var seeds: seq<HttpSeed>

    function State(): Page
      reads this
    {
      Page(title, description, content, seeds)
    }

    constructor (ctx: Context)
      ensures this.ctx == ctx && State() == EmptyPage
    {
      this.ctx := ctx;
      title, description, content, seeds := "", "", "", [];
    }

    /**
     * Visit `n` and then its children in order. `err` is the resolver error
     * that ends the walk (the source ends the process there).
     */
    method Visit(n: Node) returns (err: Option<ExtractError>)
      requires TitlesHaveChild(Preorder(n))
      modifies this
      ensures StepAll(ctx, Preorder(n), old(State())) ==
              (if err.None? then Success(State()) else Failure(err.value))
      decreases n
    {
      assert n in Preorder(n);
      ghost var before := State();
      err := VisitNode(n);
      if err.Some? {
        assert Preorder(n)[0] == n;
        return;
      }
      StepAllAppend(ctx, [n], PreorderAll(n.children), before);

      var cs := n.children;
      var i := 0;
      while i < |cs|
        invariant 0 <= i <= |cs|
        invariant TitlesHaveChild(PreorderAll(cs[i..]))
        invariant StepAll(ctx, Preorder(n), before) == StepAll(ctx, PreorderAll(cs[i..]), State())
      {
        PreorderOfChild(n, i);
        ghost var mid := State();
        PreorderAllFrom(cs, i);
        StepAllAppend(ctx, Preorder(cs[i]), PreorderAll(cs[i + 1..]), mid);
        err := Visit(cs[i]);
        if err.Some? {
          return;
        }
        i := i + 1;
      }
      assert cs[i..] == [];
      err := None;
    }

    /**
     * The walk's work at `n` itself, before its children: set the title,
     * collect the link, set the description or append the text.
     */
    method VisitNode(n: Node) returns (err: Option<ExtractError>)
      requires IsTitle(n) ==> |n.children| > 0
      modifies this
      ensures Step(ctx, n, old(State())) == (if err.None? then Success(State()) else Failure(err.value))
    {
      if n.Element? && n.data == "title" {
        title := n.children[0].data;
      } else if n.Element? && n.data == "a" {
        var href := GetAttr("href", n.attrs);
        if href != "" && ctx.tier < TierThreshold {
          var url := ctx.resolve(ctx.base, href);
          if url.None? {
            return Some(Unresolvable(ctx.base, href));
          }
          if !HasPrefix(url.value, "mailto:") {
            seeds := seeds + [HttpSeed(url.value)];
          }
        }
      } else if n.Element? && n.data == "meta" {
        if GetAttr("name", n.attrs) == "description" {
          description := GetAttr("content", n.attrs);
        }
      } else if n.Text? {
        content := content + n.data;
      }
      err := None;
    }
  }
}
