/** Listing every key of an S3 bucket by chasing `list_objects_v2`
    continuation tokens, and printing each key.

    The S3 service is a page source: each bucket it knows is listed as a
    sequence of response pages, every page but the last carrying the token of
    the next one. */
module S3Listing {
  import opened PyValues

  /** One `list_objects_v2` response: the keys under "Contents" (absent for
      an empty bucket) and "NextContinuationToken" (absent on the last page). */
  datatype Page = Page(contents: Option<seq<string>>, nextToken: Option<string>)

  /** The arguments of one `list_objects_v2` call. */
  datatype ListRequest = ListRequest(bucket: string, token: Option<string>)

  const NO_SUCH_BUCKET :=
    "An error occurred (NoSuchBucket) when calling the ListObjectsV2 operation: The specified bucket does not exist"
  const BAD_TOKEN :=
    "An error occurred (InvalidArgument) when calling the ListObjectsV2 operation: The continuation token provided is incorrect"

  /** The token page `i` hands out. */
  function TokenAt(pages: seq<Page>, i: nat): Option<string>
    requires i < |pages|
  {
    pages[i].nextToken
  }

  /** A bucket's listing: at least one page, a token on exactly the pages
      before the last, tokens non-empty and no token used twice. */
  ghost predicate Listing(pages: seq<Page>) {
    && |pages| > 0
    && pages[|pages| - 1].nextToken.None?
    && (forall i :: 0 <= i < |pages| - 1 ==> pages[i].nextToken.Some? && pages[i].nextToken.value != "")
    && (forall i, j :: 0 <= i < j < |pages| - 1 ==> TokenAt(pages, i) != TokenAt(pages, j))
  }

  /** The page whose token is `t`, if any; the next page is the one it leads to. */
  function PageWithToken(pages: seq<Page>, t: string): (r: Option<nat>)
    ensures r.Some? ==> r.value + 1 < |pages| && pages[r.value].nextToken == Some(t)
    ensures r.None? ==> forall i :: 0 <= i < |pages| - 1 ==> pages[i].nextToken != Some(t)
  {
    if |pages| < 2 then None
    else if pages[0].nextToken == Some(t) then Some(0)
    else
      match PageWithToken(pages[1..], t)
      case None => None
      case Some(i) => Some(i + 1)
  }

  /** The S3 service as the handler's client sees it: the pages of each
      bucket it knows, and the requests it answers with an error of its own
      (access denied, throttling, a dropped connection) whatever the bucket
      holds. */
  datatype S3Client = S3Client(buckets: map<string, seq<Page>>, refuses: ListRequest -> Option<Exc>) {

    /** `list_objects_v2(Bucket=..., ContinuationToken=...)`: the first page
        without a token, the page after the token's page with one. */
    function ListObjectsV2(req: ListRequest): (r: Result<Page>)
      ensures refuses(req).Some? ==> r == Err(refuses(req).value)
      ensures refuses(req).None? && req.bucket !in buckets ==> r == Err(Raised(NO_SUCH_BUCKET))
      ensures refuses(req).None? && req.bucket in buckets && req.token.None? && |buckets[req.bucket]| > 0 ==>
                r == Ok(buckets[req.bucket][0])
    {
      if refuses(req).Some? then Err(refuses(req).value)
      else if req.bucket !in buckets then Err(Raised(NO_SUCH_BUCKET))
      else
        var pages := buckets[req.bucket];
        match req.token
        case None => if |pages| > 0 then Ok(pages[0]) else Err(Raised(NO_SUCH_BUCKET))
        case Some(t) =>
          match PageWithToken(pages, t)
          case None => Err(Raised(BAD_TOKEN))
          case Some(i) => Ok(pages[i + 1])
    }
  }

  // ---------------------------------------------------------------------
  // What a listing promises

  /** The keys of the pages, in page order and in order within each page. */
  function AllKeys(pages: seq<Page>): seq<string> {
    if pages == [] then []
    else
      AllKeys(pages[..|pages| - 1]) +
      (match pages[|pages| - 1].contents case None => [] case Some(keys) => keys)
  }

  /** The `k`-th request of the loop: the first without a token, each later
      one with the token of the page before it. */
  function Request(bucket: string, pages: seq<Page>, k: nat): (r: ListRequest)
    requires k < |pages|
    ensures r.bucket == bucket
    ensures k == 0 <==> r.token.None?
    ensures k > 0 && pages[k - 1].nextToken.Some? ==> r.token == pages[k - 1].nextToken
  {
    if k == 0 then ListRequest(bucket, None)
    else ListRequest(bucket, Some(if pages[k - 1].nextToken.Some? then pages[k - 1].nextToken.value else ""))
  }

  /** In a listing, the `k`-th request, unless refused, is answered with the
      `k`-th page. */
  lemma RequestAnswered(s3: S3Client, bucket: string, k: nat)
    requires bucket in s3.buckets && Listing(s3.buckets[bucket])
    requires k < |s3.buckets[bucket]|
    requires s3.refuses(Request(bucket, s3.buckets[bucket], k)).None?
    ensures s3.ListObjectsV2(Request(bucket, s3.buckets[bucket], k)) == Ok(s3.buckets[bucket][k])
  {
    var pages := s3.buckets[bucket];
    if k > 0 {
      var t := pages[k - 1].nextToken.value;
      var i := PageWithToken(pages, t);
      assert i.value < k - 1 ==> TokenAt(pages, i.value) != TokenAt(pages, k - 1);
      assert i.value > k - 1 ==> TokenAt(pages, k - 1) != TokenAt(pages, i.value);
    }
  }

  /** The loop never asks for the same page twice. */
  lemma {:induction false} NoRequestRepeated(bucket: string, pages: seq<Page>, j: nat, k: nat)
    requires Listing(pages)
    requires j < k < |pages|
    ensures Request(bucket, pages, j) != Request(bucket, pages, k)
  {
    if j > 0 {
      assert TokenAt(pages, j - 1) != TokenAt(pages, k - 1);
    }
  }

  /** Appending a page appends its keys. */
  lemma {:induction false} AllKeysAppend(pages: seq<Page>, k: nat)
    requires k < |pages| && pages[k].contents.Some?
    ensures AllKeys(pages[..k + 1]) == AllKeys(pages[..k]) + pages[k].contents.value
  {
    assert pages[..k + 1][..k] == pages[..k];
  }

  /** What listing a known bucket leads to. The requests are the listing's
      first requests, in order. Every request but the last was answered with
      a page that had "Contents". The last request stops the loop: it was
      refused (that error is raised), or its page lacks "Contents" (KeyError),
      or its page is the last one (nothing is raised). The printed keys are
      those of the pages before the last request, plus the last page's keys
      when nothing is raised. */
  ghost predicate Outcome(s3: S3Client, bucket: string, requests: seq<ListRequest>, printed: seq<string>,
                          raised: Option<Exc>)
  {
    && bucket in s3.buckets
    && var pages := s3.buckets[bucket];
    && 0 < |requests| <= |pages|
    && var last := |requests| - 1;
    && (forall k :: 0 <= k < |requests| ==> requests[k] == Request(bucket, pages, k))
    && (forall k :: 0 <= k < last ==> s3.refuses(requests[k]).None? && pages[k].contents.Some?)
    && raised == (if s3.refuses(requests[last]).Some? then s3.refuses(requests[last])
                  else if pages[last].contents.None? then Some(KeyError("Contents"))
                  else None)
    && (raised.None? ==> last == |pages| - 1)
    && printed == (if raised.None? then AllKeys(pages) else AllKeys(pages[..last]))
  }

  /** The state of `fetch_objects` between two requests: every request so far
      was answered with a page that had "Contents", and `next_token` is the
      last page's token. */
  ghost predicate Progress(s3: S3Client, bucket: string, requests: seq<ListRequest>, printed: seq<string>,
                           nextToken: string)
  {
    && bucket in s3.buckets
    && var pages := s3.buckets[bucket];
    && Listing(pages)
    && |requests| < |pages|
    && (forall k :: 0 <= k < |requests| ==> requests[k] == Request(bucket, pages, k))
    && (forall k :: 0 <= k < |requests| ==> s3.refuses(requests[k]).None? && pages[k].contents.Some?)
    && printed == AllKeys(pages[..|requests|])
    && (|requests| == 0 <==> nextToken == "")
    && (|requests| > 0 ==> pages[|requests| - 1].nextToken == Some(nextToken))
  }

  /** The request built from `next_token` is the next one of the listing,
      and unless it is refused it is answered with the next page. */
  lemma NextRequest(s3: S3Client, bucket: string, requests: seq<ListRequest>, printed: seq<string>, nextToken: string)
    requires Progress(s3, bucket, requests, printed, nextToken)
    ensures var req := if nextToken == "" then ListRequest(bucket, None) else ListRequest(bucket, Some(nextToken));
      && req == Request(bucket, s3.buckets[bucket], |requests|)
      && (s3.refuses(req).None? ==> s3.ListObjectsV2(req) == Ok(s3.buckets[bucket][|requests|]))
  {
    var req := Request(bucket, s3.buckets[bucket], |requests|);
    if s3.refuses(req).None? {
      RequestAnswered(s3, bucket, |requests|);
    }
  }

  /** The request list grows by the listing's next request. */
  lemma {:induction false} RequestsExtend(bucket: string, pages: seq<Page>, requests: seq<ListRequest>)
    requires |requests| < |pages|
    requires forall k :: 0 <= k < |requests| ==> requests[k] == Request(bucket, pages, k)
    ensures var rs := requests + [Request(bucket, pages, |requests|)];
      forall k :: 0 <= k < |rs| ==> rs[k] == Request(bucket, pages, k)
  {
    var rs := requests + [Request(bucket, pages, |requests|)];
    forall k | 0 <= k < |rs| ensures rs[k] == Request(bucket, pages, k) {
      if k < |requests| { assert rs[k] == requests[k]; }
    }
  }

  /** A refused request ends the listing with the service's error; the keys
      of the pages before it have been printed. */
  lemma RefusedStops(s3: S3Client, bucket: string, requests: seq<ListRequest>, printed: seq<string>, nextToken: string)
    requires Progress(s3, bucket, requests, printed, nextToken)
    requires s3.refuses(Request(bucket, s3.buckets[bucket], |requests|)).Some?
    ensures var req := Request(bucket, s3.buckets[bucket], |requests|);
      Outcome(s3, bucket, requests + [req], printed, s3.refuses(req))
  {
    var pages := s3.buckets[bucket];
    var rs := requests + [Request(bucket, pages, |requests|)];
    RequestsExtend(bucket, pages, requests);
    assert forall k :: 0 <= k < |rs| - 1 ==> rs[k] == requests[k];
  }

  /** A page without "Contents" ends the listing with a KeyError. */
  lemma BarePageStops(s3: S3Client, bucket: string, requests: seq<ListRequest>, printed: seq<string>, nextToken: string)
    requires Progress(s3, bucket, requests, printed, nextToken)
    requires s3.refuses(Request(bucket, s3.buckets[bucket], |requests|)).None?
    requires s3.buckets[bucket][|requests|].contents.None?
    ensures Outcome(s3, bucket, requests + [Request(bucket, s3.buckets[bucket], |requests|)], printed,
                    Some(KeyError("Contents")))
  {
    var pages := s3.buckets[bucket];
    var rs := requests + [Request(bucket, pages, |requests|)];
    RequestsExtend(bucket, pages, requests);
    assert forall k :: 0 <= k < |rs| - 1 ==> rs[k] == requests[k];
  }

  /** The page without a token ends the listing with all keys printed. */
  lemma LastPageStops(s3: S3Client, bucket: string, requests: seq<ListRequest>, printed: seq<string>, nextToken: string)
    requires Progress(s3, bucket, requests, printed, nextToken)
    requires s3.refuses(Request(bucket, s3.buckets[bucket], |requests|)).None?
    requires s3.buckets[bucket][|requests|].contents.Some? && s3.buckets[bucket][|requests|].nextToken.None?
    ensures Outcome(s3, bucket, requests + [Request(bucket, s3.buckets[bucket], |requests|)],
                    printed + s3.buckets[bucket][|requests|].contents.value, None)
  {
    var pages, k := s3.buckets[bucket], |requests|;
    var rs := requests + [Request(bucket, pages, k)];
    RequestsExtend(bucket, pages, requests);
    assert forall j :: 0 <= j < |rs| - 1 ==> rs[j] == requests[j];
    assert k == |pages| - 1;
    AllKeysAppend(pages, k);
    assert pages[..k + 1] == pages;
  }

  /** A page with "Contents" and a token moves on to the next page. */
  lemma PageAdvances(s3: S3Client, bucket: string, requests: seq<ListRequest>, printed: seq<string>, nextToken: string)
    requires Progress(s3, bucket, requests, printed, nextToken)
    requires s3.refuses(Request(bucket, s3.buckets[bucket], |requests|)).None?
    requires s3.buckets[bucket][|requests|].contents.Some? && s3.buckets[bucket][|requests|].nextToken.Some?
    ensures Progress(s3, bucket, requests + [Request(bucket, s3.buckets[bucket], |requests|)],
                     printed + s3.buckets[bucket][|requests|].contents.value,
                     s3.buckets[bucket][|requests|].nextToken.value)
  {
    var pages, k := s3.buckets[bucket], |requests|;
    var rs := requests + [Request(bucket, pages, k)];
    RequestsExtend(bucket, pages, requests);
    assert forall j :: 0 <= j < |rs| - 1 ==> rs[j] == requests[j];
    AllKeysAppend(pages, k);
  }

  // ---------------------------------------------------------------------
  // FetchS3Object

  class FetchS3Object {
    var bucketName: string
    var s3Client: S3Client

    /** The client is handed in; `Bucket(bucket_name).name` is the name itself. */
    constructor(bucketName: string, s3Client: S3Client)
      ensures this.bucketName == bucketName && this.s3Client == s3Client
    {
      this.bucketName := bucketName;
      this.s3Client := s3Client;
    }

    /** `fetch_objects`: the requests it makes, the keys it prints, the
        exception it raises, if any, and its return value, which is `None`
        (the repository's test expects the list of keys instead). */
    method FetchObjects() returns (requests: seq<ListRequest>, printed: seq<string>, raised: Option<Exc>,
                                   returned: Option<seq<string>>)
      requires bucketName in s3Client.buckets ==> Listing(s3Client.buckets[bucketName])
      ensures returned == None
      ensures bucketName !in s3Client.buckets ==>
        var first := ListRequest(bucketName, None);
        && requests == [first] && printed == []
        && raised == Some(if s3Client.refuses(first).Some? then s3Client.refuses(first).value else Raised(NO_SUCH_BUCKET))
      ensures bucketName in s3Client.buckets ==> Outcome(s3Client, bucketName, requests, printed, raised)
    {
      var s3, bucket := s3Client, bucketName;
      requests, printed, raised, returned := [], [], None, None;
      ghost var pages := if bucket in s3.buckets then s3.buckets[bucket] else [];
      var nextToken := "";
      while true
        invariant bucket !in s3.buckets ==> requests == [] && printed == [] && nextToken == ""
        invariant bucket in s3.buckets ==> Progress(s3, bucket, requests, printed, nextToken)
        invariant raised == None
        decreases |pages| - |requests|
      {
        var request := if nextToken == "" then ListRequest(bucket, None)
                       else ListRequest(bucket, Some(nextToken));
        var response := s3.ListObjectsV2(request);
        ghost var before := requests;
        if bucket in s3.buckets {
          NextRequest(s3, bucket, requests, printed, nextToken);
        }
        requests := requests + [request];
        if response.Err? {
          if bucket in s3.buckets {
            RefusedStops(s3, bucket, before, printed, nextToken);
          }
          raised := Some(response.exc);
          return;
        }
        var page := response.value;
        if page.contents.None? {
          BarePageStops(s3, bucket, before, printed, nextToken);
          raised := Some(KeyError("Contents"));
          return;
        }
        var keys := page.contents.value;
        ghost var printedBefore := printed;
        for i := 0 to |keys|
          invariant printed == printedBefore + keys[..i]
        {
          printed := printed + [keys[i]];
        }
        assert keys[..|keys|] == keys;
        if page.nextToken.Some? {
          PageAdvances(s3, bucket, before, printedBefore, nextToken);
          nextToken := page.nextToken.value;
        } else {
          LastPageStops(s3, bucket, before, printedBefore, nextToken);
          break;
        }
      }
    }
  }

  /** The one-object bucket of the repository's test: the key is printed and
      `None` is returned, where the test expects the list of that key. */
  method FetchOneObject(bucket: string, key: string) returns (printed: seq<string>, returned: Option<seq<string>>)
    ensures printed == [key]
    ensures returned == None
  {
    var pages := [Page(Some([key]), None)];
    var s3 := S3Client(map[bucket := pages], _ => None);
    var fetcher := new FetchS3Object(bucket, s3);
    var requests, raised;
    requests, printed, raised, returned := fetcher.FetchObjects();
    assert pages[..|pages| - 1] == [];
    assert AllKeys(pages) == [key];
  }
}
