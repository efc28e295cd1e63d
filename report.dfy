/**
 * `logResult`: the crawl tree printed as one line per page, the root's title
 * first, each page's children below it indented by two more spaces; a child
 * without a title is skipped together with everything under it. The lines
 * are returned instead of printed.
 */
module Report {
  import opened SpiderTypes
  import opened Strings

  /** The lines `logResult(result, prefix)` prints, in order. */
  function LogResult(result: CrawlResult, prefix: string): (lines: seq<string>)
    ensures |lines| >= 1 && lines[0] == prefix + result.title
    ensures forall k :: 0 <= k < |lines| ==> HasPrefix(lines[k], prefix)
    ensures forall k :: 1 <= k < |lines| ==> HasPrefix(lines[k], prefix + "  ")
  {
    [prefix + result.title] + LogChildren(result.seeds, prefix + "  ")
  }

  /** The loop of `logResult` over the children, each printed with `prefix`. */
  function LogChildren(children: seq<CrawlResult>, prefix: string): (lines: seq<string>)
    ensures forall k :: 0 <= k < |lines| ==> HasPrefix(lines[k], prefix)
  {
    if children == [] then []
    else
      (if children[0].title != "" then LogResult(children[0], prefix) else [])
      + LogChildren(children[1..], prefix)
  }

  /** The children `logResult` descends into: those with a title, in order. */
  function Titled(children: seq<CrawlResult>): seq<CrawlResult>
  {
    if children == [] then []
    else (if children[0].title != "" then [children[0]] else []) + Titled(children[1..])
  }

  /** The number of pages shown: the root, and the shown pages under each titled child. */
  function Shown(r: CrawlResult): nat
  {
    1 + ShownAll(r.seeds)
  }

  function ShownAll(children: seq<CrawlResult>): nat
  {
    if children == [] then 0
    else (if children[0].title != "" then Shown(children[0]) else 0) + ShownAll(children[1..])
  }

  /** `lines` with `prefix` put in front of each. */
  function Indented(prefix: string, lines: seq<string>): (r: seq<string>)
    ensures |r| == |lines|
    ensures forall k :: 0 <= k < |lines| ==> r[k] == prefix + lines[k]
  {
    seq(|lines|, k requires 0 <= k < |lines| => prefix + lines[k])
  }

  /** One line per shown page: the count does not depend on the prefix. */
  lemma {:induction false} LineCount(r: CrawlResult, prefix: string)
    ensures |LogResult(r, prefix)| == Shown(r)
  {
    LineCountAll(r.seeds, prefix + "  ");
  }

  lemma {:induction false} LineCountAll(children: seq<CrawlResult>, prefix: string)
    ensures |LogChildren(children, prefix)| == ShownAll(children)
  {
    if children != [] {
      if children[0].title != "" {
        LineCount(children[0], prefix);
      }
      LineCountAll(children[1..], prefix);
    }
  }

  /** Children without a title contribute nothing, not even their own subtrees. */
  lemma {:induction false} UntitledChildrenOmitted(children: seq<CrawlResult>, prefix: string)
    ensures LogChildren(children, prefix) == LogChildren(Titled(children), prefix)
  {
    if children != [] {
      UntitledChildrenOmitted(children[1..], prefix);
      var rest := Titled(children[1..]);
      if children[0].title != "" {
        assert Titled(children) == [children[0]] + rest;
        assert ([children[0]] + rest)[1..] == rest;
      } else {
        assert Titled(children) == rest;
      }
    }
  }

  /** Children are printed in their order: the lines of `a + b` are those of `a`, then those of `b`. */
  lemma {:induction false} ChildrenInOrder(a: seq<CrawlResult>, b: seq<CrawlResult>, prefix: string)
    ensures LogChildren(a + b, prefix) == LogChildren(a, prefix) + LogChildren(b, prefix)
  {
    if a == [] {
      assert a + b == b;
    } else {
      assert (a + b)[0] == a[0];
      assert (a + b)[1..] == a[1..] + b;
      ChildrenInOrder(a[1..], b, prefix);
    }
  }

  /** Printing under `prefix` is printing under no prefix and putting `prefix` before every line. */
  lemma PrefixDistributes(r: CrawlResult, prefix: string)
    ensures LogResult(r, prefix) == Indented(prefix, LogResult(r, ""))
  {
    PrefixShift(r, prefix, "");
    assert prefix + "" == prefix;
  }

  lemma {:induction false} PrefixShift(r: CrawlResult, prefix: string, inner: string)
    ensures LogResult(r, prefix + inner) == Indented(prefix, LogResult(r, inner))
  {
    PrefixShiftAll(r.seeds, prefix, inner + "  ");
    assert prefix + inner + "  " == prefix + (inner + "  ");
    IndentedAppend(prefix, [inner + r.title], LogChildren(r.seeds, inner + "  "));
    assert prefix + inner + r.title == prefix + (inner + r.title);
  }

  lemma {:induction false} PrefixShiftAll(children: seq<CrawlResult>, prefix: string, inner: string)
    ensures LogChildren(children, prefix + inner) == Indented(prefix, LogChildren(children, inner))
  {
    if children != [] {
      PrefixShiftAll(children[1..], prefix, inner);
      var head0 := if children[0].title != "" then LogResult(children[0], inner) else [];
      if children[0].title != "" {
        PrefixShift(children[0], prefix, inner);
      }
      IndentedAppend(prefix, head0, LogChildren(children[1..], inner));
    }
  }

  lemma IndentedAppend(prefix: string, a: seq<string>, b: seq<string>)
    ensures Indented(prefix, a + b) == Indented(prefix, a) + Indented(prefix, b)
  {
  }
}
