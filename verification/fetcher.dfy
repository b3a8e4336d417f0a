/**
 * The meeting loop of the attendance runner: for every catalog row, one
 * request for the meeting's participants, then one more request per
 * non-empty `next_page_token`, converting every participant on every page.
 *
 * The provider is a total function from (meeting id, cursor) to its
 * response. The cursor "" stands for the first request, which sends no
 * `next_page_token`; every later request sends a non-empty one. The source
 * loops for ever on a cursor chain that never ends, so the model asks that
 * every catalog meeting's chain ends within some `bound` requests; the bound
 * is a termination witness only (FollowBoundIrrelevant).
 */
module Fetcher {
  import opened Seqs
  import opened Normalizer

  /** A decoded response: a payload with a `code` key, or a page. */
  datatype Response = Error(message: string) | Page(participants: seq<Participant>, nextToken: string)

  type Provider = (int, string) -> Response

  /** One request sent to the provider. */
  datatype Request = Request(meetingId: int, cursor: string)

  /** Following the cursors from `token` reaches an empty token, or an error payload, within `bound` requests. */
  predicate EndsWithin(api: Provider, m: int, token: string, bound: nat)
    decreases bound
  {
    token == "" ||
    (bound > 0 &&
     match api(m, token)
     case Error(_) => true
     case Page(_, next) => EndsWithin(api, m, next, bound - 1))
  }

  /** Meeting `m`'s requests end within `bound` requests after the first. */
  predicate Drains(api: Provider, m: int, bound: nat) {
    match api(m, "")
    case Error(_) => true
    case Page(_, next) => EndsWithin(api, m, next, bound)
  }

  predicate AllDrain(api: Provider, catalog: seq<Series>, bound: nat) {
    forall k :: 0 <= k < |catalog| ==> Drains(api, catalog[k].meetingId, bound)
  }

  /**
   * What the requests for one meeting yield. `cursors` lists the cursors
   * requested, in order.
   *  - Skipped: the first response was an error payload; its message is logged.
   *  - Fetched: every page was read; `participants` is every page's list, in order.
   *  - Broken: a later response was an error payload. The source then reads
   *    its missing `participants` key and the run fails.
   */
  datatype MeetingFetch =
    | Skipped(message: string, cursors: seq<string>)
    | Fetched(participants: seq<Participant>, cursors: seq<string>)
    | Broken(participants: seq<Participant>, cursors: seq<string>)

  /** One more page in front of what the rest of the chain yields. */
  function Prepend(ps: seq<Participant>, cursor: string, f: MeetingFetch): (g: MeetingFetch)
    requires !f.Skipped?
  {
    match f
    case Fetched(qs, cs) => Fetched(ps + qs, [cursor] + cs)
    case Broken(qs, cs) => Broken(ps + qs, [cursor] + cs)
  }

  /** The follow-up requests of the inner `while` loop, starting at `token`. */
  function Follow(api: Provider, m: int, token: string, bound: nat): (f: MeetingFetch)
    requires EndsWithin(api, m, token, bound)
    ensures !f.Skipped?
    decreases bound
  {
    if token == "" then Fetched([], [])
    else
      match api(m, token)
      case Error(_) => Broken([], [token])
      case Page(ps, next) => Prepend(ps, token, Follow(api, m, next, bound - 1))
  }

  /** All requests for meeting `m`: the first one, then the cursor chain. */
  function FetchMeeting(api: Provider, m: int, bound: nat): (f: MeetingFetch)
    requires Drains(api, m, bound)
    ensures f.Skipped? <==> api(m, "").Error?
    ensures f.Skipped? ==> f == Skipped(api(m, "").message, [""])
  {
    match api(m, "")
    case Error(msg) => Skipped(msg, [""])
    case Page(ps, next) => Prepend(ps, "", Follow(api, m, next, bound))
  }

  /** The participants of the pages at the given cursors, page after page. */
  function PagesAt(api: Provider, m: int, cursors: seq<string>): seq<Participant> {
    if cursors == [] then []
    else
      (match api(m, cursors[0]) case Error(_) => [] case Page(ps, _) => ps)
      + PagesAt(api, m, cursors[1..])
  }

  /**
   * The cursors form the provider's chain: each but the last was answered
   * by a page whose `next_page_token` is the following cursor, which is
   * not empty.
   */
  ghost predicate Linked(api: Provider, m: int, cursors: seq<string>) {
    forall i, j :: 0 <= i < j < |cursors| && j == i + 1 ==>
      cursors[j] != "" && api(m, cursors[i]).Page? && api(m, cursors[i]).nextToken == cursors[j]
  }

  function RequestsOf(m: int, cursors: seq<string>): (rs: seq<Request>)
    ensures |rs| == |cursors|
    ensures forall i :: 0 <= i < |cursors| ==> rs[i] == Request(m, cursors[i])
  {
    if cursors == [] then [] else [Request(m, cursors[0])] + RequestsOf(m, cursors[1..])
  }

  /**
   * What the loop has accumulated: `import_list`, the logged error
   * messages, the requests sent, and whether the run has failed.
   */
  datatype Harvest = Harvest(rows: seq<Row>, messages: seq<string>, requests: seq<Request>, broken: bool)

  const NoHarvest := Harvest([], [], [], false)

  /** Adds one meeting's outcome to what was accumulated before it. */
  function Absorb(params: Params, tz: TzConvert, h: Harvest, series: Series, f: MeetingFetch): Harvest {
    var m := series.meetingId;
    match f
    case Skipped(msg, cs) => Harvest(h.rows, h.messages + [msg], h.requests + RequestsOf(m, cs), false)
    case Fetched(ps, cs) => Harvest(h.rows + ConvertAll(params, tz, m, series, ps), h.messages, h.requests + RequestsOf(m, cs), false)
    case Broken(ps, cs) => Harvest(h.rows + ConvertAll(params, tz, m, series, ps), h.messages, h.requests + RequestsOf(m, cs), true)
  }

  /** The loop over the remaining catalog rows; a failed run goes no further. */
  function FetchFrom(params: Params, tz: TzConvert, h: Harvest, rest: seq<Series>, api: Provider, bound: nat): Harvest
    requires AllDrain(api, rest, bound)
    decreases |rest|
  {
    if rest == [] || h.broken then h
    else
      var f := FetchMeeting(api, rest[0].meetingId, bound);
      FetchFrom(params, tz, Absorb(params, tz, h, rest[0], f), rest[1..], api, bound)
  }

  /** What the meeting loop of `run` accumulates over the whole catalog. */
  function FetchCatalog(params: Params, tz: TzConvert, catalog: seq<Series>, api: Provider, bound: nat): Harvest
    requires AllDrain(api, catalog, bound)
  {
    FetchFrom(params, tz, NoHarvest, catalog, api, bound)
  }

  /** One meeting's contribution on its own. */
  function Contribution(params: Params, tz: TzConvert, series: Series, api: Provider, bound: nat): Harvest
    requires Drains(api, series.meetingId, bound)
  {
    Absorb(params, tz, NoHarvest, series, FetchMeeting(api, series.meetingId, bound))
  }

  function Join(h1: Harvest, h2: Harvest): Harvest {
    Harvest(h1.rows + h2.rows, h1.messages + h2.messages, h1.requests + h2.requests, h1.broken || h2.broken)
  }

  /** Every meeting's contribution, concatenated in catalog order. */
  function Contributions(params: Params, tz: TzConvert, catalog: seq<Series>, api: Provider, bound: nat): Harvest
    requires AllDrain(api, catalog, bound)
  {
    if catalog == [] then NoHarvest
    else Join(Contribution(params, tz, catalog[0], api, bound), Contributions(params, tz, catalog[1..], api, bound))
  }

  // ---------------------------------------------------------------------
  // The loop itself
  // ---------------------------------------------------------------------

  /** `for participant in ...: import_list.append(participant_converter(...))` */
  method AppendConverted(importList: seq<Row>, params: Params, tz: TzConvert, meetingId: int, series: Series, ps: seq<Participant>)
    returns (result: seq<Row>)
    ensures result == importList + ConvertAll(params, tz, meetingId, series, ps)
  {
    result := importList;
    for j := 0 to |ps|
      invariant result + ConvertAll(params, tz, meetingId, series, ps[j..]) == importList + ConvertAll(params, tz, meetingId, series, ps)
    {
      ghost var rest := ConvertAll(params, tz, meetingId, series, ps[j + 1..]);
      assert ps[j..][0] == ps[j] && ps[j..][1..] == ps[j + 1..];
      var row := ParticipantConverter(params, tz, meetingId, series, ps[j]);
      assert result + ([row] + rest) == (result + [row]) + rest;
      result := result + [row];
    }
    assert ps[|ps|..] == [];
    assert result + [] == result;
  }

  /**
   * The inner `while` loop of `run`: one request per non-empty
   * `next_page_token`, converting each page's participants. An error
   * payload here is fatal (`broken`, returned at once): the source reads
   * its missing `participants` key.
   */
  method FollowPages(params: Params, tz: TzConvert, series: Series, api: Provider, ghost bound: nat, token: string,
                     importList: seq<Row>, totalParticipants: nat, messages: seq<string>, requests: seq<Request>)
    returns (importList': seq<Row>, totalParticipants': nat, requests': seq<Request>, broken: bool)
    requires EndsWithin(api, series.meetingId, token, bound)
    requires totalParticipants == |importList|
    ensures Harvest(importList', messages, requests', broken)
         == Absorb(params, tz, Harvest(importList, messages, requests, false), series, Follow(api, series.meetingId, token, bound))
    ensures totalParticipants' == |importList'|
  {
    var meetingId := series.meetingId;
    importList', totalParticipants', requests', broken := importList, totalParticipants, requests, false;
    var nextPagination := token;
    ghost var fuel := bound;
    while nextPagination != ""
      invariant EndsWithin(api, meetingId, nextPagination, fuel)
      invariant totalParticipants' == |importList'|
      invariant Absorb(params, tz, Harvest(importList, messages, requests, false), series, Follow(api, meetingId, token, bound))
             == Absorb(params, tz, Harvest(importList', messages, requests', false), series, Follow(api, meetingId, nextPagination, fuel))
      decreases fuel
    {
      ghost var here := Harvest(importList', messages, requests', false);
      requests' := requests' + [Request(meetingId, nextPagination)];
      var innerData := api(meetingId, nextPagination);
      if innerData.Error? {
        broken := true;
        assert Follow(api, meetingId, nextPagination, fuel) == Broken([], [nextPagination]);
        assert ConvertAll(params, tz, meetingId, series, []) == [];
        return;
      }
      AbsorbPrepend(params, tz, here, series, innerData.participants, nextPagination,
                    Follow(api, meetingId, innerData.nextToken, fuel - 1));
      totalParticipants' := totalParticipants' + |innerData.participants|;
      importList' := AppendConverted(importList', params, tz, meetingId, series, innerData.participants);
      nextPagination := innerData.nextToken;
      fuel := fuel - 1;
    }
    assert ConvertAll(params, tz, meetingId, series, []) == [];
  }

  /**
   * The body of the meeting loop of `run` for one catalog row: the first
   * request; an error payload logged and skipped; otherwise the page
   * converted and the follow-up requests sent while the token is not empty.
   */
  method DrainMeeting(params: Params, tz: TzConvert, series: Series, api: Provider, ghost bound: nat,
                      importList: seq<Row>, totalParticipants: nat, messages: seq<string>, requests: seq<Request>)
    returns (importList': seq<Row>, totalParticipants': nat, messages': seq<string>, requests': seq<Request>, broken: bool)
    requires Drains(api, series.meetingId, bound)
    requires totalParticipants == |importList|
    ensures Harvest(importList', messages', requests', broken)
         == Absorb(params, tz, Harvest(importList, messages, requests, false), series, FetchMeeting(api, series.meetingId, bound))
    ensures totalParticipants' == |importList'|
  {
    var meetingId := series.meetingId;
    var data := api(meetingId, "");
    if data.Page? {
      var firstRows := AppendConverted(importList, params, tz, meetingId, series, data.participants);
      var firstRequests := requests + [Request(meetingId, "")];
      AbsorbPrepend(params, tz, Harvest(importList, messages, requests, false), series, data.participants, "",
                    Follow(api, meetingId, data.nextToken, bound));
      messages' := messages;
      importList', totalParticipants', requests', broken :=
        FollowPages(params, tz, series, api, bound, data.nextToken,
                    firstRows, totalParticipants + |data.participants|, messages, firstRequests);
    } else {
      importList', totalParticipants', messages', requests', broken :=
        importList, totalParticipants, messages + [data.message], requests + [Request(meetingId, "")], false;
    }
  }

  /** The meeting loop of `run`, over every catalog row in order. */
  method FetchAll(params: Params, tz: TzConvert, catalog: seq<Series>, api: Provider, ghost bound: nat)
    returns (importList: seq<Row>, totalParticipants: nat, messages: seq<string>, requests: seq<Request>, broken: bool)
    requires AllDrain(api, catalog, bound)
    ensures Harvest(importList, messages, requests, broken) == FetchCatalog(params, tz, catalog, api, bound)
    ensures totalParticipants == |importList|
  {
    importList, totalParticipants, messages, requests, broken := [], 0, [], [], false;
    for k := 0 to |catalog|
      invariant !broken
      invariant totalParticipants == |importList|
      invariant FetchFrom(params, tz, Harvest(importList, messages, requests, false), catalog[k..], api, bound)
             == FetchCatalog(params, tz, catalog, api, bound)
    {
      assert catalog[k..][0] == catalog[k] && catalog[k..][1..] == catalog[k + 1..];
      importList, totalParticipants, messages, requests, broken :=
        DrainMeeting(params, tz, catalog[k], api, bound, importList, totalParticipants, messages, requests);
      if broken {
        return;
      }
    }
  }

  /** Absorbing a page and then the rest of the chain is absorbing both at once. */
  lemma AbsorbPrepend(params: Params, tz: TzConvert, h: Harvest, series: Series, ps: seq<Participant>, cursor: string, f: MeetingFetch)
    requires !f.Skipped?
    ensures Absorb(params, tz, h, series, Prepend(ps, cursor, f))
         == Absorb(params, tz, Harvest(h.rows + ConvertAll(params, tz, series.meetingId, series, ps), h.messages,
                                       h.requests + [Request(series.meetingId, cursor)], false), series, f)
  {
    var m := series.meetingId;
    ConvertAllAppend(params, tz, m, series, ps, f.participants);
    var front := ConvertAll(params, tz, m, series, ps);
    var back := ConvertAll(params, tz, m, series, f.participants);
    AppendAssociative(h.rows, front, back);
    var cs := [cursor] + f.cursors;
    assert cs[0] == cursor && cs[1..] == f.cursors;
    var later := RequestsOf(m, f.cursors);
    assert RequestsOf(m, cs) == [Request(m, cursor)] + later;
    AppendAssociative(h.requests, [Request(m, cursor)], later);
  }
}

/** Properties of the meeting loop's specification. */
module FetcherFacts {
  import opened Normalizer
  import opened Fetcher

  /** Any bound that covers the cursor chain gives the same outcome: the bound is only a termination witness. */
  lemma {:induction false} FollowBoundIrrelevant(api: Provider, m: int, token: string, b1: nat, b2: nat)
    requires EndsWithin(api, m, token, b1) && EndsWithin(api, m, token, b2)
    ensures Follow(api, m, token, b1) == Follow(api, m, token, b2)
    decreases b1
  {
    if token != "" && api(m, token).Page? {
      FollowBoundIrrelevant(api, m, api(m, token).nextToken, b1 - 1, b2 - 1);
    }
  }

  lemma FetchMeetingBoundIrrelevant(api: Provider, m: int, b1: nat, b2: nat)
    requires Drains(api, m, b1) && Drains(api, m, b2)
    ensures FetchMeeting(api, m, b1) == FetchMeeting(api, m, b2)
  {
    if api(m, "").Page? {
      FollowBoundIrrelevant(api, m, api(m, "").nextToken, b1, b2);
    }
  }

  function Last(cursors: seq<string>): string
    requires cursors != []
  {
    cursors[|cursors| - 1]
  }

  /**
   * The follow-up requests from a non-empty token: one per cursor of the
   * chain, starting with that token; they stop at the first page whose
   * token is empty (Fetched) or at the first error payload (Broken); the
   * participants are those of the requested pages, in request order.
   */
  lemma {:induction false} FollowChain(api: Provider, m: int, token: string, bound: nat)
    requires EndsWithin(api, m, token, bound)
    ensures var f := Follow(api, m, token, bound);
      && (token == "" ==> f == Fetched([], []))
      && (token != "" ==>
            && |f.cursors| > 0 && f.cursors[0] == token
            && Linked(api, m, f.cursors)
            && (forall i :: 0 <= i < |f.cursors| ==> f.cursors[i] != "")
            && f.participants == PagesAt(api, m, f.cursors)
            && (f.Fetched? ==> api(m, Last(f.cursors)).Page? && api(m, Last(f.cursors)).nextToken == "")
            && (f.Broken? ==> api(m, Last(f.cursors)).Error?))
  {
    FollowLinks(api, m, token, bound);
    FollowParticipants(api, m, token, bound);
    if token != "" {
      FollowEnds(api, m, token, bound);
    }
  }

  /** The cursors requested from a non-empty token are the provider's chain from that token. */
  lemma {:induction false} FollowLinks(api: Provider, m: int, token: string, bound: nat)
    requires EndsWithin(api, m, token, bound)
    ensures var f := Follow(api, m, token, bound);
      && (token == "" ==> f == Fetched([], []))
      && (token != "" ==>
            && |f.cursors| > 0 && f.cursors[0] == token
            && Linked(api, m, f.cursors)
            && (forall i :: 0 <= i < |f.cursors| ==> f.cursors[i] != ""))
    decreases bound
  {
    if token != "" && api(m, token).Page? {
      var next := api(m, token).nextToken;
      var rest := Follow(api, m, next, bound - 1);
      FollowLinks(api, m, next, bound - 1);
      var cs := Follow(api, m, token, bound).cursors;
      assert cs == [token] + rest.cursors;
      forall i, j | 0 <= i < j < |cs| && j == i + 1
        ensures cs[j] != "" && api(m, cs[i]).Page? && api(m, cs[i]).nextToken == cs[j]
      {
        if i > 0 {
          assert cs[i] == rest.cursors[i - 1] && cs[j] == rest.cursors[j - 1];
        }
      }
    }
  }

  /** The participants collected from a token are those of the pages requested, in order. */
  lemma {:induction false} FollowParticipants(api: Provider, m: int, token: string, bound: nat)
    requires EndsWithin(api, m, token, bound)
    ensures Follow(api, m, token, bound).participants == PagesAt(api, m, Follow(api, m, token, bound).cursors)
    decreases bound
  {
    if token != "" {
      var cs := Follow(api, m, token, bound).cursors;
      assert cs[0] == token;
      match api(m, token)
      case Error(_) =>
        assert cs[1..] == [];
      case Page(ps, next) =>
        var rest := Follow(api, m, next, bound - 1);
        FollowParticipants(api, m, next, bound - 1);
        assert cs[1..] == rest.cursors;
    }
  }

  /** A chain read to the end stops at a page with an empty token; a broken one at an error payload. */
  lemma {:induction false} FollowEnds(api: Provider, m: int, token: string, bound: nat)
    requires EndsWithin(api, m, token, bound)
    requires token != ""
    ensures var f := Follow(api, m, token, bound);
      && |f.cursors| > 0
      && (f.Fetched? ==> api(m, Last(f.cursors)).Page? && api(m, Last(f.cursors)).nextToken == "")
      && (f.Broken? ==> api(m, Last(f.cursors)).Error?)
    decreases bound
  {
    if api(m, token).Page? {
      var next := api(m, token).nextToken;
      var rest := Follow(api, m, next, bound - 1);
      var cs := Follow(api, m, token, bound).cursors;
      assert cs == [token] + rest.cursors;
      if next == "" {
        assert cs == [token];
      } else {
        FollowEnds(api, m, next, bound - 1);
        assert Last(cs) == Last(rest.cursors);
      }
    }
  }


  /**
   * All requests for one meeting follow the provider's cursor chain: the
   * first carries no cursor, each later one the previous page's non-empty
   * `next_page_token`. A meeting that is read to the end stops at the first
   * page whose token is empty, and its participants are every requested
   * page's, in order. A skipped meeting costs exactly one request; a broken
   * one ends at an error payload on a later request.
   */
  lemma MeetingRequestsFollowChain(api: Provider, m: int, bound: nat)
    requires Drains(api, m, bound)
    ensures var f := FetchMeeting(api, m, bound);
      && |f.cursors| > 0 && f.cursors[0] == ""
      && Linked(api, m, f.cursors)
      && (forall i :: 0 < i < |f.cursors| ==> f.cursors[i] != "")
      && (f.Skipped? ==> f.cursors == [""])
      && (f.Fetched? ==> api(m, Last(f.cursors)).Page? && api(m, Last(f.cursors)).nextToken == ""
                         && f.participants == PagesAt(api, m, f.cursors))
      && (f.Broken? ==> |f.cursors| > 1 && api(m, Last(f.cursors)).Error?
                        && f.participants == PagesAt(api, m, f.cursors))
  {
    MeetingLinks(api, m, bound);
    MeetingPages(api, m, bound);
    MeetingEnds(api, m, bound);
  }

  /** The cursors of a meeting: "" first, then the provider's chain of non-empty tokens. */
  lemma MeetingLinks(api: Provider, m: int, bound: nat)
    requires Drains(api, m, bound)
    ensures var cs := FetchMeeting(api, m, bound).cursors;
      && |cs| > 0 && cs[0] == ""
      && Linked(api, m, cs)
      && (forall i :: 0 < i < |cs| ==> cs[i] != "")
  {
    var cs := FetchMeeting(api, m, bound).cursors;
    if api(m, "").Page? {
      var next := api(m, "").nextToken;
      var rest := Follow(api, m, next, bound).cursors;
      FollowLinks(api, m, next, bound);
      assert cs == [""] + rest;
      forall i | 0 < i < |cs| ensures cs[i] != "" {
        assert cs[i] == rest[i - 1];
      }
      forall i, j | 0 <= i < j < |cs| && j == i + 1
        ensures cs[j] != "" && api(m, cs[i]).Page? && api(m, cs[i]).nextToken == cs[j]
      {
        if i > 0 {
          assert cs[i] == rest[i - 1] && cs[j] == rest[j - 1];
        }
      }
    }
  }

  /** A meeting that was not skipped yields the participants of its requested pages, in order. */
  lemma MeetingPages(api: Provider, m: int, bound: nat)
    requires Drains(api, m, bound)
    ensures var f := FetchMeeting(api, m, bound);
      !f.Skipped? ==> f.participants == PagesAt(api, m, f.cursors)
  {
    if api(m, "").Page? {
      var ps, next := api(m, "").participants, api(m, "").nextToken;
      var rest := Follow(api, m, next, bound);
      FollowParticipants(api, m, next, bound);
      var cs := FetchMeeting(api, m, bound).cursors;
      assert cs == [""] + rest.cursors;
      assert cs[0] == "" && cs[1..] == rest.cursors;
    }
  }

  /** A meeting read to the end stops at an empty token; a broken one at an error payload on a later page. */
  lemma MeetingEnds(api: Provider, m: int, bound: nat)
    requires Drains(api, m, bound)
    ensures var f := FetchMeeting(api, m, bound);
      && |f.cursors| > 0
      && (f.Fetched? ==> api(m, Last(f.cursors)).Page? && api(m, Last(f.cursors)).nextToken == "")
      && (f.Broken? ==> |f.cursors| > 1 && api(m, Last(f.cursors)).Error?)
  {
    if api(m, "").Page? {
      var next := api(m, "").nextToken;
      var rest := Follow(api, m, next, bound);
      var cs := FetchMeeting(api, m, bound).cursors;
      assert cs == [""] + rest.cursors;
      if next == "" {
        assert cs == [""];
      } else {
        FollowEnds(api, m, next, bound);
        assert Last(cs) == Last(rest.cursors);
      }
    }
  }



  /** A first page whose token is empty: exactly one request, and exactly that page's participants. */
  lemma SinglePageMeeting(api: Provider, m: int, bound: nat, ps: seq<Participant>)
    requires api(m, "") == Page(ps, "")
    ensures Drains(api, m, bound)
    ensures FetchMeeting(api, m, bound) == Fetched(ps, [""])
  {
    assert ps + [] == ps;
  }

  /** Total number of participants on the pages at the given cursors. */
  function PageSizes(api: Provider, m: int, cursors: seq<string>): nat {
    if cursors == [] then 0
    else (match api(m, cursors[0]) case Error(_) => 0 case Page(ps, _) => |ps|) + PageSizes(api, m, cursors[1..])
  }

  lemma {:induction false} PagesAtSize(api: Provider, m: int, cursors: seq<string>)
    ensures |PagesAt(api, m, cursors)| == PageSizes(api, m, cursors)
  {
    if cursors != [] {
      PagesAtSize(api, m, cursors[1..]);
    }
  }

  /**
   * One meeting's share of the run: a skipped meeting adds its message and
   * its one request and no row; any other adds one row per participant of
   * every requested page (their number is the sum of the pages' sizes) and
   * one request per cursor.
   */
  lemma ContributionOfMeeting(params: Params, tz: TzConvert, series: Series, api: Provider, bound: nat)
    requires Drains(api, series.meetingId, bound)
    ensures var m := series.meetingId;
            var c := Contribution(params, tz, series, api, bound);
            var f := FetchMeeting(api, m, bound);
      && (api(m, "").Error? ==> c == Harvest([], [api(m, "").message], [Request(m, "")], false))
      && (api(m, "").Page? ==>
            && c.rows == ConvertAll(params, tz, m, series, PagesAt(api, m, f.cursors))
            && |c.rows| == PageSizes(api, m, f.cursors)
            && c.messages == []
            && c.requests == RequestsOf(m, f.cursors)
            && c.broken == f.Broken?)
  {
    var m := series.meetingId;
    var f := FetchMeeting(api, m, bound);
    MeetingPages(api, m, bound);
    if api(m, "").Error? {
      assert f.cursors == [""];
      assert RequestsOf(m, [""]) == [Request(m, "")];
    } else {
      PagesAtSize(api, m, f.cursors);
      var rows := ConvertAll(params, tz, m, series, f.participants);
      var requests := RequestsOf(m, f.cursors);
      assert [] + rows == rows && [] + requests == requests;
    }
  }


  /** A skipped meeting does not stop the loop: the next catalog row is processed as if it were first. */
  lemma SkippedMeetingContinues(params: Params, tz: TzConvert, h: Harvest, rest: seq<Series>, api: Provider, bound: nat)
    requires AllDrain(api, rest, bound)
    requires !h.broken && rest != [] && api(rest[0].meetingId, "").Error?
    ensures FetchFrom(params, tz, h, rest, api, bound)
         == FetchFrom(params, tz, Harvest(h.rows, h.messages + [api(rest[0].meetingId, "").message],
                                          h.requests + [Request(rest[0].meetingId, "")], false), rest[1..], api, bound)
  {
    assert RequestsOf(rest[0].meetingId, [""]) == [Request(rest[0].meetingId, "")];
  }

  lemma AbsorbIsJoin(params: Params, tz: TzConvert, h: Harvest, series: Series, f: MeetingFetch)
    requires !h.broken
    ensures Absorb(params, tz, h, series, f) == Join(h, Absorb(params, tz, NoHarvest, series, f))
  {
    var m := series.meetingId;
    var requested := RequestsOf(m, f.cursors);
    var noRequest: seq<Request> := [];
    assert noRequest + requested == requested;
    if f.Skipped? {
      var noRow: seq<Row> := [];
      var logged := [f.message];
      assert h.rows + noRow == h.rows;
      assert [] + logged == logged;
    } else {
      var rows := ConvertAll(params, tz, m, series, f.participants);
      var noMessage: seq<string> := [];
      assert [] + rows == rows;
      assert h.messages + noMessage == h.messages;
    }
  }


  lemma {:induction false} FetchFromIsJoin(params: Params, tz: TzConvert, h: Harvest, rest: seq<Series>, api: Provider, bound: nat)
    requires AllDrain(api, rest, bound)
    requires !h.broken
    ensures FetchFrom(params, tz, h, rest, api, bound).broken == Contributions(params, tz, rest, api, bound).broken
    ensures !Contributions(params, tz, rest, api, bound).broken ==>
              FetchFrom(params, tz, h, rest, api, bound) == Join(h, Contributions(params, tz, rest, api, bound))
    decreases |rest|
  {
    if rest == [] {
      assert h.rows + [] == h.rows && h.messages + [] == h.messages && h.requests + [] == h.requests;
    } else {
      var f := FetchMeeting(api, rest[0].meetingId, bound);
      var c := Contribution(params, tz, rest[0], api, bound);
      var h' := Absorb(params, tz, h, rest[0], f);
      AbsorbIsJoin(params, tz, h, rest[0], f);
      assert FetchFrom(params, tz, h, rest, api, bound) == FetchFrom(params, tz, h', rest[1..], api, bound);
      var tail := Contributions(params, tz, rest[1..], api, bound);
      assert Contributions(params, tz, rest, api, bound) == Join(c, tail);
      if !c.broken {
        FetchFromIsJoin(params, tz, h', rest[1..], api, bound);
        JoinAssociative(h, c, tail);
      }
    }
  }

  lemma JoinAssociative(a: Harvest, b: Harvest, c: Harvest)
    ensures Join(Join(a, b), c) == Join(a, Join(b, c))
  {
    assert (a.rows + b.rows) + c.rows == a.rows + (b.rows + c.rows);
    assert (a.messages + b.messages) + c.messages == a.messages + (b.messages + c.messages);
    assert (a.requests + b.requests) + c.requests == a.requests + (b.requests + c.requests);
  }

  /**
   * The loop as a whole: it fails exactly when some meeting has an error
   * payload on a later page, and otherwise `import_list`, the log and the
   * requests are every meeting's own share, concatenated in catalog order.
   */
  lemma FetchCatalogConcatenatesMeetings(params: Params, tz: TzConvert, catalog: seq<Series>, api: Provider, bound: nat)
    requires AllDrain(api, catalog, bound)
    ensures FetchCatalog(params, tz, catalog, api, bound).broken == Contributions(params, tz, catalog, api, bound).broken
    ensures !Contributions(params, tz, catalog, api, bound).broken ==>
              FetchCatalog(params, tz, catalog, api, bound) == Contributions(params, tz, catalog, api, bound)
  {
    FetchFromIsJoin(params, tz, NoHarvest, catalog, api, bound);
    var c := Contributions(params, tz, catalog, api, bound);
    assert Join(NoHarvest, c).rows == c.rows;
    assert Join(NoHarvest, c).messages == c.messages;
    assert Join(NoHarvest, c).requests == c.requests;
  }
}
