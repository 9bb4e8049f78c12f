/**
 * The keyword search plugin for Brightcove videos: who may search, the LIKE
 * pattern built from the keywords, the status filter built from the current
 * user's permissions, the query conditions, and the result list.
 */
module BrightcoveVideoSearch {
  import opened Wrappers

  /** Status of a published video. */
  const Published: int := 1
  /** Status of an unpublished video. */
  const NotPublished: int := 0
  /** Maximum number of video entities the query returns per page. */
  const ResultLimit: nat := 15

  const ViewPublished: string := "view published brightcove videos"
  const ViewUnpublished: string := "view unpublished brightcove videos"

  /** The fields the LIKE pattern is matched against, any of them sufficing. */
  const SearchedFields: seq<string> := ["name", "description", "long_description", "related_link__title"]

  /** The permission that lets an account view videos of status `status`. */
  function PermissionFor(status: int): string {
    if status == Published then ViewPublished else ViewUnpublished
  }

  /** The video statuses an account holding `permissions` may view. */
  ghost function VisibleStatuses(permissions: set<string>): set<int> {
    set status | status in {Published, NotPublished} && PermissionFor(status) in permissions
  }

  /** access: an account may use the search iff it may view videos of some status. */
  function Access(operation: string, permissions: set<string>): (allowed: bool)
    ensures allowed <==> VisibleStatuses(permissions) != {}
  {
    assert ViewPublished in permissions ==> Published in VisibleStatuses(permissions);
    assert ViewUnpublished in permissions ==> NotPublished in VisibleStatuses(permissions);
    ViewPublished in permissions || ViewUnpublished in permissions
  }

  // ---- Keywords to LIKE pattern ----

  /** A run of `n` wildcards. */
  function Stars(n: nat): string {
    seq(n, _ => '*')
  }

  /**
   * `s` with every run of '*' replaced by one '%'; `inRun` says that the
   * character just before `s` was a '*', already replaced.
   */
  function Collapse(s: string, inRun: bool): string {
    if s == [] then []
    else if s[0] == '*' then (if inRun then Collapse(s[1..], true) else "%" + Collapse(s[1..], true))
    else [s[0]] + Collapse(s[1..], false)
  }

  /** The keywords with each run of one or more '*' replaced by a single '%'. */
  function CollapseStars(s: string): string {
    Collapse(s, false)
  }

  /** No wildcard is left after collapsing. */
  lemma {:induction false} CollapseRemovesStars(s: string, inRun: bool)
    ensures '*' !in Collapse(s, inRun)
    decreases |s|
  {
    if s != [] {
      CollapseRemovesStars(s[1..], s[0] == '*');
    }
  }

  /** A string without wildcards is left as it is. */
  lemma {:induction false} CollapseWithoutStars(s: string, inRun: bool)
    requires '*' !in s
    ensures Collapse(s, inRun) == s
    decreases |s|
  {
    if s != [] {
      assert s[0] in s;
      assert forall c :: c in s[1..] ==> c in s;
      CollapseWithoutStars(s[1..], false);
    }
  }

  /** Collapsing distributes over a split just after a literal character. */
  lemma {:induction false} CollapseAppend(a: string, b: string, inRun: bool)
    requires a != [] && a[|a| - 1] != '*'
    ensures Collapse(a + b, inRun) == Collapse(a, inRun) + Collapse(b, false)
    decreases |a|
  {
    var ab := a + b;
    assert ab[0] == a[0];
    assert ab[1..] == a[1..] + b;
    if |a| == 1 {
      assert a[1..] == [];
      assert ab[1..] == b;
    } else {
      assert a[1..][|a[1..]| - 1] == a[|a| - 1];
      CollapseAppend(a[1..], b, a[0] == '*');
      if a[0] != '*' {
        assert [a[0]] + (Collapse(a[1..], false) + Collapse(b, false))
            == ([a[0]] + Collapse(a[1..], false)) + Collapse(b, false);
      } else if !inRun {
        assert "%" + (Collapse(a[1..], true) + Collapse(b, false))
            == ("%" + Collapse(a[1..], true)) + Collapse(b, false);
      }
    }
  }

  /** Inside a run, further wildcards add nothing. */
  lemma {:induction false} CollapseInRun(n: nat, b: string)
    requires b == [] || b[0] != '*'
    ensures Collapse(Stars(n) + b, true) == Collapse(b, false)
  {
    if n == 0 {
      assert Stars(n) + b == b;
    } else {
      var sb := Stars(n) + b;
      assert sb[0] == '*';
      assert sb[1..] == Stars(n - 1) + b;
      CollapseInRun(n - 1, b);
    }
  }

  /** Each maximal run of wildcards becomes exactly one '%'. */
  lemma CollapseRun(a: string, n: nat, b: string)
    requires n > 0
    requires a == [] || a[|a| - 1] != '*'
    requires b == [] || b[0] != '*'
    ensures CollapseStars(a + Stars(n) + b) == CollapseStars(a) + "%" + CollapseStars(b)
  {
    var sb := Stars(n) + b;
    assert sb[0] == '*';
    assert sb[1..] == Stars(n - 1) + b;
    CollapseInRun(n - 1, b);
    assert Collapse(sb, false) == "%" + Collapse(b, false);
    if a == [] {
      assert a + Stars(n) + b == sb;
    } else {
      assert a + Stars(n) + b == a + sb;
      CollapseAppend(a, sb, false);
      assert Collapse(a, false) + ("%" + Collapse(b, false)) == Collapse(a, false) + "%" + Collapse(b, false);
    }
  }

  /** The LIKE pattern for keywords already escaped for LIKE matching. */
  function LikePattern(escapedKeywords: string): (like: string)
    ensures |like| >= 2 && like[0] == '%' && like[|like| - 1] == '%'
    ensures '*' !in like
  {
    CollapseRemovesStars(escapedKeywords, false);
    "%" + CollapseStars(escapedKeywords) + "%"
  }

  /** Keywords without wildcards are searched for as a substring. */
  lemma LikePatternLiteral(escapedKeywords: string)
    requires '*' !in escapedKeywords
    ensures LikePattern(escapedKeywords) == "%" + escapedKeywords + "%"
  {
    CollapseWithoutStars(escapedKeywords, false);
  }

  /** A run of wildcards between two literal parts becomes one '%' between them. */
  lemma LikePatternWildcard(a: string, n: nat, b: string)
    requires n > 0 && '*' !in a && '*' !in b
    ensures LikePattern(a + Stars(n) + b) == "%" + a + "%" + b + "%"
  {
    assert a != [] ==> a[|a| - 1] in a;
    assert b != [] ==> b[0] in b;
    CollapseRun(a, n, b);
    CollapseWithoutStars(a, false);
    CollapseWithoutStars(b, false);
  }

  // ---- Status filter ----

  /**
   * The status condition for an account: the statuses it may view, published
   * first, each once; the single NULL sentinel when there are none.
   */
  ghost predicate StatusCondition(statuses: seq<Option<int>>, permissions: set<string>) {
    && statuses != []
    && (forall status :: Some(status) in statuses <==> status in VisibleStatuses(permissions))
    && (None in statuses <==> VisibleStatuses(permissions) == {})
    && (VisibleStatuses(permissions) == {} ==> statuses == [None])
    && (forall i, j :: 0 <= i < j < |statuses| ==> statuses[i] != statuses[j])
    && (forall i, j ::
          0 <= i < |statuses| && 0 <= j < |statuses| &&
          statuses[i] == Some(NotPublished) && statuses[j] == Some(Published)
          ==> j < i)
  }

  /** The status list of the video query, built from the account's permissions. */
  method StatusFilter(permissions: set<string>) returns (statuses: seq<Option<int>>)
    ensures StatusCondition(statuses, permissions)
    ensures None in statuses <==> !Access("view", permissions)
  {
    statuses := [];
    if ViewPublished in permissions {
      statuses := statuses + [Some(Published)];
    }
    if ViewUnpublished in permissions {
      statuses := statuses + [Some(NotPublished)];
    }
    // The query cannot take an empty list.
    if statuses == [] {
      statuses := statuses + [None];
    }
    assert Published in VisibleStatuses(permissions) <==> ViewPublished in permissions;
    assert NotPublished in VisibleStatuses(permissions) <==> ViewUnpublished in permissions;
  }

  // ---- The video query ----

  /** A LIKE condition on one field. */
  datatype LikeCondition = LikeCondition(field: string, pattern: string)

  /** The conditions, order and page size of the video query. */
  datatype VideoQuery = VideoQuery(
    anyOf: seq<LikeCondition>,
    statusIn: seq<Option<int>>,
    sortField: string,
    descending: bool,
    pageSize: nat)

  /**
   * The query of queryVideos for keywords already escaped for LIKE: any of
   * the searched fields matches the pattern, the status is one the account
   * may view, newest first, one page of ResultLimit entities.
   */
  method QueryConditions(escapedKeywords: string, permissions: set<string>) returns (q: VideoQuery)
    ensures |q.anyOf| == |SearchedFields|
    ensures forall i :: 0 <= i < |q.anyOf| ==> q.anyOf[i] == LikeCondition(SearchedFields[i], LikePattern(escapedKeywords))
    ensures StatusCondition(q.statusIn, permissions)
    ensures q.sortField == "created" && q.descending
    ensures q.pageSize == ResultLimit
  {
    var like := LikePattern(escapedKeywords);
    var group := [LikeCondition("name", like), LikeCondition("description", like),
                  LikeCondition("long_description", like), LikeCondition("related_link__title", like)];
    var statuses := StatusFilter(permissions);
    q := VideoQuery(group, statuses, "created", true, ResultLimit);
  }

  // ---- Results ----

  /** A loaded video entity: its name and its rendered URL. */
  datatype Video = Video(name: string, url: string)

  /** One search result. */
  datatype SearchResult = SearchResult(title: string, link: string)

  /** prepareResults: `results` followed by one result per entity, in order. */
  method PrepareResults(entities: seq<Video>, results: seq<SearchResult>) returns (combined: seq<SearchResult>)
    ensures |combined| == |results| + |entities|
    ensures combined[..|results|] == results
    ensures forall i :: 0 <= i < |entities| ==>
      combined[|results| + i] == SearchResult(entities[i].name, entities[i].url)
  {
    combined := results;
    for i := 0 to |entities|
      invariant |combined| == |results| + i
      invariant combined[..|results|] == results
      invariant forall j :: 0 <= j < i ==> combined[|results| + j] == SearchResult(entities[j].name, entities[j].url)
    {
      var video := entities[i];
      var result := SearchResult(video.name, video.url);
      combined := combined + [result];
    }
  }

  /**
   * execute: no results unless the search is executable; otherwise one
   * result per video the query returned.
   */
  method Execute(executable: bool, found: seq<Video>) returns (results: seq<SearchResult>)
    ensures !executable ==> results == []
    ensures executable ==> |results| == |found|
    ensures executable ==> forall i :: 0 <= i < |found| ==>
      results[i] == SearchResult(found[i].name, found[i].url)
  {
    results := [];
    if executable {
      results := PrepareResults(found, results);
    }
  }
}
