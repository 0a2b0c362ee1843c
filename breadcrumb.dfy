/**
  The breadcrumb trail of `src/components/Breadcrumb.tsx`: the pathname is cut
  into its non-empty segments, each prefix of segments becomes one crumb named
  from a fixed table (or by its own last segment), and HOME always comes first.
  Only the last crumb is plain text; the others are links.
*/
module Breadcrumb {
  import opened Text
  import opened Seqs

  /** One crumb: where it links to and what it shows. */
  datatype Crumb = Crumb(path: string, name: string)

  /** How a crumb is shown: a link to its path, or (the last one) plain text. */
  datatype CrumbView = Link(href: string, text: string) | Plain(text: string)

  /** The display names of the pages that have one. */
  const PathToName: map<string, string> := map[
    "/" := "HOME",
    "/company" := "会社概要",
    "/recruiter" := "採用担当者の方へ",
    "/terms" := "利用規約（ユーザー向け）",
    "/works" := "仕事・スキルについて知る",
    "/privacy" := "プライバシーポリシー",
    "/simplified-test" := "真贋スキル簡易テスト",
    "/about" := "リユース転職について",
    "/contact" := "お問い合わせ"
  ]

  const Home := Crumb("/", "HOME")

  /** `segment => segment`: a segment is kept when it is not the empty string. */
  predicate NonEmpty(s: string) { s != "" }

  /** The pathname split on '/' with the empty pieces dropped. */
  function Segments(pathname: string): seq<string>
  {
    Filter(Split(pathname, '/'), NonEmpty)
  }

  /** `pathToName[path] || segment`: the table's name when it has a non-empty one. */
  function NameOf(path: string, segment: string): string
  {
    if path in PathToName && PathToName[path] != "" then PathToName[path] else segment
  }

  /** `'/' + segments.slice(0, index + 1).join('/')`. */
  function PathUpTo(segs: seq<string>, index: nat): string
    requires index < |segs|
  {
    "/" + Join(segs[..index + 1], "/")
  }

  /** The crumb for the first `index + 1` segments. */
  function CrumbAt(segs: seq<string>, index: nat): Crumb
    requires index < |segs|
  {
    var path := PathUpTo(segs, index);
    Crumb(path, NameOf(path, segs[index]))
  }

  /** The crumbs for a pathname: HOME, then one per segment. */
  function Crumbs(pathname: string): seq<Crumb>
  {
    var segs := Segments(pathname);
    [Home] + seq(|segs|, i requires 0 <= i < |segs| => CrumbAt(segs, i))
  }

  /** The rendering: the last crumb as plain text, every other one as a link. */
  function Render(items: seq<Crumb>): (views: seq<CrumbView>)
    ensures |views| == |items|
    ensures forall i | 0 <= i < |items| :: views[i].text == items[i].name
    ensures forall i | 0 <= i < |items| :: (views[i].Plain? <==> i == |items| - 1)
    ensures forall i | 0 <= i < |items| - 1 :: views[i] == Link(items[i].path, items[i].name)
  {
    seq(|items|, i requires 0 <= i < |items| =>
      if i == |items| - 1 then Plain(items[i].name) else Link(items[i].path, items[i].name))
  }

  // ----------------------------------------------------------------- lemmas

  /** Joining one more piece adds the separator and that piece. */
  lemma {:induction false} JoinSnoc(xs: seq<string>, x: string, sep: string)
    requires |xs| >= 1
    ensures Join(xs + [x], sep) == Join(xs, sep) + sep + x
    decreases |xs|
  {
    if |xs| > 1 {
      JoinSnoc(xs[1..], x, sep);
      assert (xs + [x])[1..] == xs[1..] + [x];
    }
  }

  /** Splitting a string of slashes only gives nothing but empty pieces. */
  lemma {:induction false} SplitOfSlashes(s: string)
    requires forall k | 0 <= k < |s| :: s[k] == '/'
    ensures forall k | 0 <= k < |Split(s, '/')| :: Split(s, '/')[k] == ""
    decreases |s|
  {
    if s != [] {
      SplitOfSlashes(s[1..]);
    }
  }

  /** Every segment is non-empty and free of '/'. */
  lemma SegmentsShape(pathname: string)
    ensures forall k | 0 <= k < |Segments(pathname)| :: Segments(pathname)[k] != "" && '/' !in Segments(pathname)[k]
  {
    var pieces := Split(pathname, '/');
    var segs := Segments(pathname);
    SplitPiecesHaveNoSeparator(pathname, '/');
    forall k | 0 <= k < |segs|
      ensures '/' !in segs[k]
    {
      FilterMembership(pieces, NonEmpty, segs[k]);
    }
  }

  /**
    The segments of a path are recovered from the path built by joining them: a
    crumb's path has exactly that crumb's segments.
  */
  lemma SegmentsOfJoin(segs: seq<string>)
    requires forall k | 0 <= k < |segs| :: segs[k] != "" && '/' !in segs[k]
    ensures Segments("/" + Join(segs, "/")) == segs
  {
    var joined := Join(segs, "/");
    assert "/" + joined == [] + ['/'] + joined;
    SplitAtSeparator([], joined, '/');
    var pieces := Split(joined, '/');
    assert ([""] + pieces)[1..] == pieces;
    if segs == [] {
      assert pieces == [""];
      assert [""][1..] == [];
    } else {
      SplitJoin(segs, '/');
      FilterAll(segs, NonEmpty);
    }
  }

  /**
    The trail for a pathname: HOME first, then one crumb per non-empty segment;
    crumb i + 1 is named from the table or, failing that, by its own segment.
  */
  lemma CrumbsSpec(pathname: string)
    ensures var items := Crumbs(pathname); var segs := Segments(pathname);
      |items| == |segs| + 1 && items[0] == Crumb("/", "HOME")
      && (forall i | 0 <= i < |segs| ::
            items[i + 1].name == (if items[i + 1].path in PathToName then PathToName[items[i + 1].path] else segs[i]))
  {
    var items := Crumbs(pathname);
    var segs := Segments(pathname);
    forall i | 0 <= i < |segs|
      ensures items[i + 1] == CrumbAt(segs, i)
    {
    }
  }

  /** Crumb i (after HOME) links to a path whose segments are exactly the first i segments of the pathname. */
  lemma CrumbSegments(pathname: string)
    ensures var items := Crumbs(pathname); var segs := Segments(pathname);
      |items| == |segs| + 1
      && forall i | 1 <= i < |items| :: Segments(items[i].path) == segs[..i]
  {
    var items := Crumbs(pathname);
    var segs := Segments(pathname);
    SegmentsShape(pathname);
    forall i | 1 <= i < |items|
      ensures Segments(items[i].path) == segs[..i]
    {
      assert items[i] == CrumbAt(segs, i - 1);
      SegmentsOfJoin(segs[..i]);
    }
  }

  /** A path of slashes only (the root among them) shows HOME alone. */
  lemma RootIsHomeOnly(pathname: string)
    requires forall k | 0 <= k < |pathname| :: pathname[k] == '/'
    ensures Crumbs(pathname) == [Crumb("/", "HOME")]
  {
    SplitOfSlashes(pathname);
    FilterNone(Split(pathname, '/'), NonEmpty);
  }

  /** Each crumb's path is a proper prefix of the next one's. */
  lemma CrumbPathsExtend(pathname: string)
    ensures var items := Crumbs(pathname);
      forall i | 0 <= i < |items| - 1 ::
        |items[i].path| < |items[i + 1].path| && items[i + 1].path[..|items[i].path|] == items[i].path
  {
    var items := Crumbs(pathname);
    var segs := Segments(pathname);
    forall i | 0 <= i < |items| - 1
      ensures |items[i].path| < |items[i + 1].path| && items[i + 1].path[..|items[i].path|] == items[i].path
    {
      assert items[i + 1] == CrumbAt(segs, i);
      if i > 0 {
        assert items[i] == CrumbAt(segs, i - 1);
        JoinSnoc(segs[..i], segs[i], "/");
        assert segs[..i + 1] == segs[..i] + [segs[i]];
      }
    }
  }

  /** Lengths that grow at every step grow between any two positions. */
  lemma {:induction false} StepsIncrease(lens: seq<int>, i: nat, j: nat)
    requires forall k | 0 <= k < |lens| - 1 :: lens[k] < lens[k + 1]
    requires i < j < |lens|
    ensures lens[i] < lens[j]
    decreases j - i
  {
    if i + 1 < j {
      StepsIncrease(lens, i + 1, j);
    }
  }

  /** The crumbs' paths, which are their keys, are pairwise distinct. */
  lemma CrumbPathsDistinct(pathname: string)
    ensures var items := Crumbs(pathname);
      forall i, j | 0 <= i < j < |items| :: items[i].path != items[j].path
  {
    var items := Crumbs(pathname);
    CrumbPathsExtend(pathname);
    var lens := seq(|items|, k requires 0 <= k < |items| => |items[k].path|);
    forall i, j | 0 <= i < j < |items|
      ensures |items[i].path| < |items[j].path|
    {
      StepsIncrease(lens, i, j);
    }
  }
}
