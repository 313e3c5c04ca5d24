/**
 * The file-revision endpoints of the document-storage client
 * (google/drive/src/revisions.rs): URL and query construction, a single
 * list call, and the walker that follows continuation tokens.
 *
 * `encode` stands for `progenitor_support::encode_path`, whose definition is
 * not part of this model. `fetch` stands for one `GET` through the shared
 * client followed by decoding the body into a `RevisionList`; `None` is a
 * transport or decode failure, on which the source's `.unwrap()` aborts.
 */
module DriveRevisions {
  import opened Wrappers
  import opened RustInts
  import opened QueryString

  /** One decoded page of a revision listing. */
  datatype RevisionList<R> = RevisionList(revisions: seq<R>, nextPageToken: string)

  /** How a walk ends: every revision, an aborted walk (no partial list), or the fuel bound reached. */
  datatype Outcome<R> = Complete(revisions: seq<R>) | Failed | OutOfFuel

  /** A walk's outcome together with the URLs it requested, in order. */
  datatype Walk<R> = Walk(outcome: Outcome<R>, requests: seq<string>)

  // ------------------------------------------------------------------ URLs

  /** The listing path of a file's revisions, also the walker's base URL. */
  function RevisionsUrl(encode: string -> string, fileId: string): (url: string)
    ensures ('?' in url) <==> ('?' in encode(fileId))
    ensures forall revisionId :: RevisionUrl(encode, fileId, revisionId) == url + "/" + encode(revisionId)
  {
    "/files/" + encode(fileId) + "/revisions"
  }

  /** `drive_delete` and `drive_update`: the path of one revision, with no query. */
  function RevisionUrl(encode: string -> string, fileId: string, revisionId: string): (url: string)
    ensures ('?' in url) <==> ('?' in encode(fileId) || '?' in encode(revisionId))
  {
    "/files/" + encode(fileId) + "/revisions/" + encode(revisionId)
  }

  /** With slash-free encoded file ids, a revision URL determines both encoded ids. */
  lemma RevisionUrlInjective(encode: string -> string, f1: string, r1: string, f2: string, r2: string)
    requires '/' !in encode(f1) && '/' !in encode(f2)
    requires RevisionUrl(encode, f1, r1) == RevisionUrl(encode, f2, r2)
    ensures encode(f1) == encode(f2) && encode(r1) == encode(r2)
  {
    var a, b, c, d := encode(f1), encode(r1), encode(f2), encode(r2);
    var l := "/files/" + a + "/revisions/" + b;
    var r := "/files/" + c + "/revisions/" + d;
    FirstSlash(a, b);
    FirstSlash(c, d);
    assert |a| == |c|;
    assert a == l[7..7 + |a|];
    assert c == r[7..7 + |c|];
    assert b == l[18 + |a|..];
    assert d == r[18 + |c|..];
  }

  /** In a revision URL with a slash-free file id, the first slash after "/files/" ends the id. */
  lemma FirstSlash(x: string, y: string)
    requires '/' !in x
    ensures ("/files/" + x + "/revisions/" + y)[7 + |x|] == '/'
    ensures forall i :: 7 <= i < 7 + |x| ==> ("/files/" + x + "/revisions/" + y)[i] == x[i - 7] != '/'
  {
  }

  /** The query arguments of `drive_list`, in the order they are pushed. */
  function DriveListArgs(pageSize: Int64, pageToken: string): (args: seq<string>)
    ensures |args| == (if pageSize > 0 then 1 else 0) + (if pageToken != "" then 1 else 0)
    ensures pageSize > 0 ==> args[0] == "page_size=" + Decimal(pageSize)
    ensures pageToken != "" ==> args[|args| - 1] == "page_token=" + pageToken
  {
    (if pageSize > 0 then ["page_size=" + Decimal(pageSize)] else [])
    + (if pageToken != "" then ["page_token=" + pageToken] else [])
  }

  /** `drive_list`'s URL: the listing path, a `?`, and the arguments joined by `&`. */
  method DriveListUrl(encode: string -> string, fileId: string, pageSize: Int64, pageToken: string)
    returns (url: string)
    ensures url == RevisionsUrl(encode, fileId) + "?" + Joined(DriveListArgs(pageSize, pageToken), '&')
  {
    var queryArgs: seq<string> := [];
    if pageSize > 0 {
      queryArgs := queryArgs + ["page_size=" + Decimal(pageSize)];
    }
    if pageToken != "" {
      queryArgs := queryArgs + ["page_token=" + pageToken];
    }
    assert queryArgs == DriveListArgs(pageSize, pageToken);
    var query := JoinQuery(queryArgs);
    url := "/files/" + encode(fileId) + "/revisions?" + query;
    assert url == RevisionsUrl(encode, fileId) + "?" + query;
  }

  /** page_size only when positive, page_token only when non-empty, in that order, `&` only between them. */
  lemma DriveListQuery(pageSize: Int64, pageToken: string)
    ensures var query := Joined(DriveListArgs(pageSize, pageToken), '&');
      && (pageSize > 0 && pageToken != "" ==> query == "page_size=" + Decimal(pageSize) + "&page_token=" + pageToken)
      && (pageSize > 0 && pageToken == "" ==> query == "page_size=" + Decimal(pageSize))
      && (pageSize <= 0 && pageToken != "" ==> query == "page_token=" + pageToken)
      && (pageSize <= 0 && pageToken == "" ==> query == "")
  {
  }

  /** `drive_list`: one request; its revisions, or failure when the request or decode fails. */
  method DriveList<R>(
    fetch: string -> Option<RevisionList<R>>, encode: string -> string,
    fileId: string, pageSize: Int64, pageToken: string)
    returns (result: Option<seq<R>>)
    ensures var url := RevisionsUrl(encode, fileId) + "?" + Joined(DriveListArgs(pageSize, pageToken), '&');
      && (fetch(url).None? ==> result.None?)
      && (fetch(url).Some? ==> result == Some(fetch(url).value.revisions))
  {
    var url := DriveListUrl(encode, fileId, pageSize, pageToken);
    var resp := fetch(url);
    if resp.None? {
      return None;
    }
    result := Some(resp.value.revisions);
  }

  /** `drive_get`: the revision URL, a `?`, and `acknowledge_abuse=true` exactly when acknowledging. */
  method DriveGetUrl(encode: string -> string, fileId: string, revisionId: string, acknowledgeAbuse: bool)
    returns (url: string)
    ensures url == RevisionUrl(encode, fileId, revisionId) + "?"
                   + (if acknowledgeAbuse then "acknowledge_abuse=true" else "")
  {
    var queryArgs: seq<string> := [];
    if acknowledgeAbuse {
      queryArgs := queryArgs + ["acknowledge_abuse=true"];
    }
    var query := JoinQuery(queryArgs);
    url := "/files/" + encode(fileId) + "/revisions/" + encode(revisionId) + "?" + query;
  }

  // ------------------------------------------------------------ pagination

  /** The URL of a follow-up request: the token is added with `?` unless the base already has a query. */
  function PageUrl(base: string, token: string): (url: string)
    ensures base <= url && '?' in url
  {
    if '?' !in base then base + "?pageToken=" + token
    else base + "&pageToken=" + token
  }

  /** A follow-up URL keeps the base in front and the token at the end, with 11 characters and a `?` or `&` between. */
  lemma PageUrlParts(base: string, token: string)
    ensures var url := PageUrl(base, token);
      && url[..|base|] == base
      && url[|base|..|base| + 11] == (if '?' !in base then "?pageToken=" else "&pageToken=")
      && |url| == |base| + 11 + |token|
      && url[|base| + 11..] == token
      && ('?' in url)
  {
  }

  /** When neither the base nor the token has a `?`, the follow-up URL has exactly one. */
  lemma PageUrlOneQuery(base: string, token: string)
    requires '?' !in base && '?' !in token
    ensures multiset(PageUrl(base, token))['?'] == 1
  {
    var sep := "?pageToken=";
    assert PageUrl(base, token) == base + sep + token;
    assert multiset(base + sep + token) == multiset(base) + multiset(sep) + multiset(token);
    assert multiset(base)['?'] == 0 && multiset(token)['?'] == 0;
    assert multiset(sep)['?'] == 1;
  }

  /** The loop guard: continue with the returned token only if it is non-empty and new. */
  function NextPage(used: string, returned: string): (page: string)
    ensures page != "" <==> returned != "" && returned != used
    ensures page != "" ==> page == returned
  {
    if returned != "" && returned != used then returned else ""
  }

  /**
   * The walk from the point where `page` is the current token and `acc` the
   * revisions collected so far, allowed at most `fuel` more requests.
   */
  function Follow<R>(
    fetch: string -> Option<RevisionList<R>>, base: string,
    page: string, acc: seq<R>, fuel: nat): (w: Walk<R>)
    ensures |w.requests| <= fuel
    ensures page == "" ==> w == Walk(Complete(acc), [])
    decreases fuel
  {
    if page == "" then Walk(Complete(acc), [])
    else if fuel == 0 then Walk(OutOfFuel, [])
    else
      var url := PageUrl(base, page);
      match fetch(url)
      case None => Walk(Failed, [url])
      case Some(resp) =>
        var rest := Follow(fetch, base, NextPage(page, resp.nextPageToken), acc + resp.revisions, fuel - 1);
        Walk(rest.outcome, [url] + rest.requests)
  }

  /** The whole walk from `base`: the first request, then the follow-ups. */
  function ListAll<R>(fetch: string -> Option<RevisionList<R>>, base: string, fuel: nat): (w: Walk<R>)
    ensures 1 <= |w.requests| <= fuel + 1 && w.requests[0] == base
    ensures fetch(base).None? ==> w == Walk(Failed, [base])
  {
    match fetch(base)
    case None => Walk(Failed, [base])
    case Some(resp) =>
      var rest := Follow(fetch, base, resp.nextPageToken, resp.revisions, fuel);
      Walk(rest.outcome, [base] + rest.requests)
  }

  /**
   * `drive_list_revisions`. The source loops without bound; `fuel` caps the
   * number of follow-up requests so that the model terminates, and the
   * lemmas below show that a larger cap never changes a finished walk.
   */
  method DriveListRevisions<R>(
    fetch: string -> Option<RevisionList<R>>, encode: string -> string,
    fileId: string, fuel: nat)
    returns (outcome: Outcome<R>)
    ensures outcome == ListAll(fetch, RevisionsUrl(encode, fileId), fuel).outcome
  {
    var url := "/files/" + encode(fileId) + "/revisions";
    var resp := fetch(url);
    if resp.None? {
      return Failed;
    }
    var revisions := resp.value.revisions;
    var page := resp.value.nextPageToken;
    ghost var first := revisions;
    var left := fuel;
    while page != ""
      invariant Follow(fetch, url, page, revisions, left).outcome == ListAll(fetch, url, fuel).outcome
      invariant first <= revisions
      decreases left
    {
      if left == 0 {
        return OutOfFuel;
      }
      var next;
      if '?' !in url {
        next := fetch(url + "?pageToken=" + page);
      } else {
        next := fetch(url + "&pageToken=" + page);
      }
      if next.None? {
        return Failed;
      }
      revisions := revisions + next.value.revisions;
      if next.value.nextPageToken != "" && next.value.nextPageToken != page {
        page := next.value.nextPageToken;
      } else {
        page := "";
      }
      left := left - 1;
    }
    outcome := Complete(revisions);
  }

  // ------------------------------------------------- properties of the walk

  /** The revisions of the pages at `urls`, concatenated in order; None if any of them fails. */
  function ItemsAlong<R>(fetch: string -> Option<RevisionList<R>>, urls: seq<string>): Option<seq<R>>
  {
    if |urls| == 0 then Some([])
    else match fetch(urls[0])
      case None => None
      case Some(resp) =>
        match ItemsAlong(fetch, urls[1..])
        case None => None
        case Some(rest) => Some(resp.revisions + rest)
  }

  /** Each request after the first uses the token of the response before it, and only on success. */
  ghost predicate Chained<R>(fetch: string -> Option<RevisionList<R>>, base: string, urls: seq<string>)
  {
    forall i :: 0 <= i < |urls| - 1 ==>
      fetch(urls[i]).Some? && urls[i + 1] == PageUrl(base, fetch(urls[i]).value.nextPageToken)
  }

  /** A finished walk returns the prefix it was given followed by every fetched page's revisions, in order. */
  lemma {:induction false} FollowConcatenates<R>(
    fetch: string -> Option<RevisionList<R>>, base: string, page: string, acc: seq<R>, fuel: nat)
    ensures var w := Follow(fetch, base, page, acc, fuel);
      w.outcome.Complete? ==>
        ItemsAlong(fetch, w.requests).Some? && w.outcome.revisions == acc + ItemsAlong(fetch, w.requests).value
    decreases fuel
  {
    if page != "" && fuel > 0 {
      var url := PageUrl(base, page);
      if fetch(url).Some? {
        var resp := fetch(url).value;
        var next := NextPage(page, resp.nextPageToken);
        FollowConcatenates(fetch, base, next, acc + resp.revisions, fuel - 1);
        var rest := Follow(fetch, base, next, acc + resp.revisions, fuel - 1);
        var reqs := [url] + rest.requests;
        assert Follow(fetch, base, page, acc, fuel) == Walk(rest.outcome, reqs);
        assert reqs[0] == url && reqs[1..] == rest.requests;
        if rest.outcome.Complete? {
          var later := ItemsAlong(fetch, rest.requests).value;
          assert ItemsAlong(fetch, reqs) == Some(resp.revisions + later);
          assert acc + resp.revisions + later == acc + (resp.revisions + later);
        }
      }
    } else if page == "" {
      assert ItemsAlong(fetch, []) == Some([]);
    }
  }

  /** The walk's result is the in-order concatenation of the revisions of every page it fetched. */
  lemma ListAllConcatenates<R>(fetch: string -> Option<RevisionList<R>>, base: string, fuel: nat)
    ensures var w := ListAll(fetch, base, fuel);
      w.outcome.Complete? ==> ItemsAlong(fetch, w.requests) == Some(w.outcome.revisions)
  {
    var w := ListAll(fetch, base, fuel);
    if fetch(base).Some? {
      var resp := fetch(base).value;
      FollowConcatenates(fetch, base, resp.nextPageToken, resp.revisions, fuel);
      assert w.requests[1..] == Follow(fetch, base, resp.nextPageToken, resp.revisions, fuel).requests;
    }
  }

  /** The follow-up requests are `PageUrl(base, t)` for the tokens in turn; a walk fails exactly when its last request does. */
  lemma FollowRequests<R>(
    fetch: string -> Option<RevisionList<R>>, base: string, page: string, acc: seq<R>, fuel: nat)
    ensures var w := Follow(fetch, base, page, acc, fuel);
      && (|w.requests| > 0 ==> page != "" && w.requests[0] == PageUrl(base, page))
      && Chained(fetch, base, w.requests)
      && (w.outcome.Failed? <==> |w.requests| > 0 && fetch(w.requests[|w.requests| - 1]).None?)
      && |w.requests| <= fuel
  {
    FollowChained(fetch, base, page, acc, fuel);
    FollowFailsLast(fetch, base, page, acc, fuel);
  }

  /** Each follow-up request is the follow-up URL for the token its predecessor's response returned. */
  lemma {:induction false} FollowChained<R>(
    fetch: string -> Option<RevisionList<R>>, base: string, page: string, acc: seq<R>, fuel: nat)
    ensures Chained(fetch, base, Follow(fetch, base, page, acc, fuel).requests)
    decreases fuel
  {
    if page != "" && fuel > 0 {
      var url := PageUrl(base, page);
      if fetch(url).Some? {
        var resp := fetch(url).value;
        var next := NextPage(page, resp.nextPageToken);
        FollowChained(fetch, base, next, acc + resp.revisions, fuel - 1);
        var rest := Follow(fetch, base, next, acc + resp.revisions, fuel - 1);
        assert Follow(fetch, base, page, acc, fuel).requests == [url] + rest.requests;
        ChainedCons(fetch, base, url, rest.requests);
      }
    }
  }

  /** A follow-up walk fails exactly when its last request gets no response. */
  lemma {:induction false} FollowFailsLast<R>(
    fetch: string -> Option<RevisionList<R>>, base: string, page: string, acc: seq<R>, fuel: nat)
    ensures var w := Follow(fetch, base, page, acc, fuel);
      w.outcome.Failed? <==> |w.requests| > 0 && fetch(w.requests[|w.requests| - 1]).None?
    decreases fuel
  {
    if page != "" && fuel > 0 {
      var url := PageUrl(base, page);
      if fetch(url).Some? {
        var resp := fetch(url).value;
        var next := NextPage(page, resp.nextPageToken);
        FollowFailsLast(fetch, base, next, acc + resp.revisions, fuel - 1);
        var rest := Follow(fetch, base, next, acc + resp.revisions, fuel - 1);
        var reqs := [url] + rest.requests;
        assert Follow(fetch, base, page, acc, fuel) == Walk(rest.outcome, reqs);
        assert |rest.requests| > 0 ==> reqs[|reqs| - 1] == rest.requests[|rest.requests| - 1];
      }
    }
  }

  /** A chain stays a chain when a request whose response names its first URL is put in front of it. */
  lemma ChainedCons<R>(fetch: string -> Option<RevisionList<R>>, base: string, url: string, rest: seq<string>)
    requires fetch(url).Some?
    requires |rest| > 0 ==> rest[0] == PageUrl(base, fetch(url).value.nextPageToken)
    requires Chained(fetch, base, rest)
    ensures Chained(fetch, base, [url] + rest)
  {
    var reqs := [url] + rest;
    forall i | 0 <= i < |reqs| - 1
      ensures fetch(reqs[i]).Some? && reqs[i + 1] == PageUrl(base, fetch(reqs[i]).value.nextPageToken)
    {
      if i > 0 {
        assert reqs[i] == rest[i - 1] && reqs[i + 1] == rest[i];
      }
    }
  }

  /** The whole walk starts at `base` and then chains on tokens; it fails exactly when its last request fails. */
  lemma ListAllRequests<R>(fetch: string -> Option<RevisionList<R>>, base: string, fuel: nat)
    ensures var w := ListAll(fetch, base, fuel);
      && |w.requests| >= 1 && w.requests[0] == base
      && Chained(fetch, base, w.requests)
      && (w.outcome.Failed? <==> fetch(w.requests[|w.requests| - 1]).None?)
      && |w.requests| <= fuel + 1
  {
    if fetch(base).Some? {
      var resp := fetch(base).value;
      FollowRequests(fetch, base, resp.nextPageToken, resp.revisions, fuel);
      var rest := Follow(fetch, base, resp.nextPageToken, resp.revisions, fuel);
      ChainedCons(fetch, base, base, rest.requests);
    }
  }

  /** An empty first token: exactly one request, and the first page's revisions are the result. */
  lemma SinglePage<R>(fetch: string -> Option<RevisionList<R>>, base: string, fuel: nat)
    requires fetch(base).Some? && fetch(base).value.nextPageToken == ""
    ensures ListAll(fetch, base, fuel) == Walk(Complete(fetch(base).value.revisions), [base])
  {
  }

  /** A server that echoes the token it was given costs exactly one extra request, then the walk stops. */
  lemma EchoedTokenStops<R>(
    fetch: string -> Option<RevisionList<R>>, base: string, page: string, acc: seq<R>, fuel: nat)
    requires page != "" && fuel > 0
    requires fetch(PageUrl(base, page)).Some? && fetch(PageUrl(base, page)).value.nextPageToken == page
    ensures Follow(fetch, base, page, acc, fuel)
            == Walk(Complete(acc + fetch(PageUrl(base, page)).value.revisions), [PageUrl(base, page)])
  {
  }

  /** Tokens "A", "B", "": three requests, and the three pages' revisions in order. */
  lemma ThreePages<R>(fetch: string -> Option<RevisionList<R>>, base: string, a: seq<R>, b: seq<R>, c: seq<R>, fuel: nat)
    requires '?' !in base && fuel >= 2
    requires fetch(base) == Some(RevisionList(a, "A"))
    requires fetch(base + "?pageToken=A") == Some(RevisionList(b, "B"))
    requires fetch(base + "?pageToken=B") == Some(RevisionList(c, ""))
    ensures ListAll(fetch, base, fuel)
            == Walk(Complete(a + b + c), [base, base + "?pageToken=A", base + "?pageToken=B"])
  {
    var urlA, urlB := base + "?pageToken=A", base + "?pageToken=B";
    assert PageUrl(base, "A") == urlA && PageUrl(base, "B") == urlB;
    assert fetch(PageUrl(base, "B")) == Some(RevisionList(c, "")) && NextPage("B", "") == "";
    assert [urlB] + [] == [urlB];
    var last := Follow(fetch, base, "B", a + b, fuel - 1);
    assert Follow(fetch, base, "", a + b + c, fuel - 2) == Walk(Complete(a + b + c), []);
    assert last == Walk(Complete(a + b + c), [urlB]);
    var middle := Follow(fetch, base, "A", a, fuel);
    assert middle == Walk(Complete(a + b + c), [urlA, urlB]);
  }

  /** A failed second request fails the walk: the first page's revisions are not returned. */
  lemma SecondRequestFails<R>(fetch: string -> Option<RevisionList<R>>, base: string, token: string, fuel: nat)
    requires fuel > 0 && token != ""
    requires fetch(base).Some? && fetch(base).value.nextPageToken == token
    requires fetch(PageUrl(base, token)).None?
    ensures ListAll(fetch, base, fuel) == Walk(Failed, [base, PageUrl(base, token)])
  {
  }

  /** The fuel is only a bound: once a walk ends without reaching it, more fuel gives the same walk. */
  lemma {:induction false} FuelIrrelevant<R>(
    fetch: string -> Option<RevisionList<R>>, base: string, page: string, acc: seq<R>, fuel: nat, more: nat)
    requires fuel <= more
    requires !Follow(fetch, base, page, acc, fuel).outcome.OutOfFuel?
    ensures Follow(fetch, base, page, acc, more) == Follow(fetch, base, page, acc, fuel)
    decreases fuel
  {
    if page != "" {
      var url := PageUrl(base, page);
      if fetch(url).Some? {
        var resp := fetch(url).value;
        FuelIrrelevant(fetch, base, NextPage(page, resp.nextPageToken), acc + resp.revisions, fuel - 1, more - 1);
      }
    }
  }

  /** The guard only catches an immediate repeat: a server cycling A -> B -> A keeps the walk going for ever. */
  lemma {:induction false} TwoCycleNeverEnds<R>(
    fetch: string -> Option<RevisionList<R>>, base: string, x: seq<R>, y: seq<R>, acc: seq<R>, fuel: nat)
    requires fetch(PageUrl(base, "A")) == Some(RevisionList(x, "B"))
    requires fetch(PageUrl(base, "B")) == Some(RevisionList(y, "A"))
    ensures Follow(fetch, base, "A", acc, fuel).outcome == OutOfFuel
    ensures Follow(fetch, base, "B", acc, fuel).outcome == OutOfFuel
    decreases fuel
  {
    if fuel > 0 {
      TwoCycleNeverEnds(fetch, base, x, y, acc + x, fuel - 1);
      TwoCycleNeverEnds(fetch, base, x, y, acc + y, fuel - 1);
    }
  }

  /** The revisions collected so far are kept: a finished walk extends its prefix. */
  lemma {:induction false} FollowExtends<R>(
    fetch: string -> Option<RevisionList<R>>, base: string, page: string, acc: seq<R>, fuel: nat)
    ensures Follow(fetch, base, page, acc, fuel).outcome.Complete? ==>
      acc <= Follow(fetch, base, page, acc, fuel).outcome.revisions
    decreases fuel
  {
    if page != "" && fuel > 0 {
      var url := PageUrl(base, page);
      if fetch(url).Some? {
        var resp := fetch(url).value;
        FollowExtends(fetch, base, NextPage(page, resp.nextPageToken), acc + resp.revisions, fuel - 1);
      }
    }
  }

  /** The walker's base URL has no query when the encoded id has no `?`, so follow-ups use `?pageToken=`. */
  lemma FollowUpsUseQuestionMark(encode: string -> string, fileId: string, token: string)
    requires '?' !in encode(fileId)
    ensures PageUrl(RevisionsUrl(encode, fileId), token)
            == "/files/" + encode(fileId) + "/revisions?pageToken=" + token
  {
  }
}
