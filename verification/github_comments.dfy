/**
 `GitHubComments.upsert`: at most fourteen requests, of which the last may write one comment, and the
 paged listing before it.
 */
module GitHubComments {
  import opened Wrappers
  import opened Outbox

  datatype Item = Item(id: nat, author: nat, body: string)

  /** A pull request reply; `confirms` when number, base repository and base branch are the registered ones. */
  datatype Pull = Pull(confirms: bool, head: string)

  /** What the requests of one call return, `None` where a request fails. */
  datatype Replies = Replies(
    first: Option<Pull>, user: Option<nat>, pages: seq<Option<seq<Item>>>, latest: Option<Pull>, policy: bool,
    written: Option<Item>)

  datatype Target = Target(head: string, marker: string, body: string, notice: string)

  datatype Sent = Nothing | Patch(id: nat, body: string) | Post(body: string)

  datatype Result = Raised | Published(state: RowState, comment: Option<nat>)

  predicate Owned(item: Item, actor: nat, marker: string) {
    item.author == actor && marker + "\n" <= item.body
  }

  function Own(items: seq<Item>, actor: nat, marker: string): seq<Item>
    decreases |items|
  {
    if items == [] then []
    else
      var last := items[|items| - 1];
      Own(items[..|items| - 1], actor, marker) + (if Owned(last, actor, marker) then [last] else [])
  }

  lemma {:induction false} OwnAppend(a: seq<Item>, b: seq<Item>, actor: nat, marker: string)
    ensures Own(a + b, actor, marker) == Own(a, actor, marker) + Own(b, actor, marker)
    decreases |b|
  {
    if b == [] {
      assert a + b == a;
    } else {
      OwnAppend(a, b[..|b| - 1], actor, marker);
      assert (a + b)[..|a + b| - 1] == a + b[..|b| - 1];
    }
  }

  function Flat(pages: seq<Option<seq<Item>>>): seq<Item>
    requires forall i :: 0 <= i < |pages| ==> pages[i].Some?
    decreases |pages|
  {
    if pages == [] then [] else Flat(pages[..|pages| - 1]) + pages[|pages| - 1].value
  }

  /** The first `k` pages are a whole listing: only the last has fewer items than a page. */
  predicate Listing(pages: seq<Option<seq<Item>>>, k: nat) {
    && 1 <= k <= |pages| && k <= MAX_PAGES
    && (forall i :: 0 <= i < k ==> pages[i].Some?)
    && (forall i :: 0 <= i < k - 1 ==> |pages[i].value| >= PAGE_SIZE)
    && |pages[k - 1].value| < PAGE_SIZE
  }

  /** Page number `i` of the comments that exist when it is read. */
  function Page(comments: seq<Item>, i: nat): seq<Item> {
    var low := i * PAGE_SIZE;
    if low >= |comments| then []
    else if low + PAGE_SIZE <= |comments| then comments[low..low + PAGE_SIZE]
    else comments[low..]
  }

  /**
   While comments are only added, a whole listing is exactly the comments that exist when its last page
   is read, however many were added between the pages.
   */
  lemma ListingIsAtomic(pages: seq<Option<seq<Item>>>, snapshots: seq<seq<Item>>, k: nat)
    requires Listing(pages, k) && |snapshots| >= k
    requires forall i, j :: 0 <= i <= j < k ==> snapshots[i] <= snapshots[j]
    requires forall i :: 0 <= i < k ==> pages[i].value == Page(snapshots[i], i)
    ensures Flat(pages[..k]) == snapshots[k - 1]
  {
    PagesBefore(pages, snapshots, k, k - 1);
    assert pages[..k][..k - 1] == pages[..k - 1];
    var s := snapshots[k - 1];
    if k > 1 {
      assert snapshots[k - 2] <= s;
    }
    assert s == s[..(k - 1) * PAGE_SIZE] + s[(k - 1) * PAGE_SIZE..];
  }

  lemma {:induction false} PagesBefore(pages: seq<Option<seq<Item>>>, snapshots: seq<seq<Item>>, k: nat, j: nat)
    requires Listing(pages, k) && |snapshots| >= k && j < k
    requires forall i, j :: 0 <= i <= j < k ==> snapshots[i] <= snapshots[j]
    requires forall i :: 0 <= i < k ==> pages[i].value == Page(snapshots[i], i)
    ensures |snapshots[k - 1]| >= j * PAGE_SIZE && Flat(pages[..j]) == snapshots[k - 1][..j * PAGE_SIZE]
    decreases j
  {
    if j > 0 {
      PagesBefore(pages, snapshots, k, j - 1);
      assert pages[..j][..j - 1] == pages[..j - 1];
      var page, s := pages[j - 1].value, snapshots[j - 1];
      assert |page| >= PAGE_SIZE;
      FullPage(s, j - 1);
      SamePage(s, snapshots[k - 1], (j - 1) * PAGE_SIZE, j * PAGE_SIZE);
    }
  }

  lemma FullPage(s: seq<Item>, i: nat)
    requires |Page(s, i)| >= PAGE_SIZE
    ensures (i + 1) * PAGE_SIZE <= |s| && Page(s, i) == s[i * PAGE_SIZE..(i + 1) * PAGE_SIZE]
  {
  }

  lemma SamePage(s: seq<Item>, longer: seq<Item>, low: nat, high: nat)
    requires s <= longer && low <= high <= |s|
    ensures longer[..high] == longer[..low] + s[low..high]
  {
  }

  /** The pages from number `i` on, up to a short one; nothing when a page fails or none is short. */
  function ListFrom(pages: seq<Option<seq<Item>>>, i: nat): Option<seq<Item>>
    decreases |pages| - i
  {
    if i >= |pages| || pages[i].None? then None
    else if |pages[i].value| < PAGE_SIZE then pages[i]
    else
      var rest := ListFrom(pages, i + 1);
      if rest.None? then None else Some(pages[i].value + rest.value)
  }

  /** `upsert`: what it reports, and what it sends to the provider. */
  function Upserted(target: Target, r: Replies): (Result, Sent) {
    if r.first.None? || !r.first.value.confirms || r.user.None? then (Raised, Nothing)
    else
      var listed := ListFrom(r.pages, 0);
      if listed.None? then (Raised, Nothing)
      else
        var owned := Own(listed.value, r.user.value, target.marker);
        if |owned| > 1 || r.latest.None? || !r.latest.value.confirms || !r.policy then (Raised, Nothing)
        else Write(target, r, owned)
  }

  /** The write, over at most one owned comment. */
  function Write(target: Target, r: Replies, owned: seq<Item>): (Result, Sent)
    requires r.first.Some? && r.latest.Some? && r.user.Some?
  {
    var stale := Stale(r, target);
    var state := if stale then Superseded else Posted;
    var body := if stale then target.notice else target.body;
    if stale && owned == [] then (Published(Superseded, None), Nothing)
    else if owned != [] && owned[0].body == body then (Published(state, Some(owned[0].id)), Nothing)
    else
      var sent := if owned != [] then Patch(owned[0].id, body) else Post(body);
      if r.written.Some? && (owned != [] ==> r.written.value.id == owned[0].id)
         && r.written.value.author == r.user.value && r.written.value.body == body
      then (Published(state, Some(r.written.value.id)), sent)
      else (Raised, sent)
  }

  predicate Stale(r: Replies, target: Target)
    requires r.first.Some? && r.latest.Some?
  {
    r.first.value.head != target.head || r.latest.value.head != target.head
  }

  class Client {
    /** The account of the last call. */
    var actor: Option<nat>

    constructor ()
      ensures actor.None?
    {
      actor := None;
    }

    /** The owned comments of one listing. */
    method ListOwned(me: nat, marker: string, pages: seq<Option<seq<Item>>>)
      returns (owned: Option<seq<Item>>, requests: nat)
      requires |pages| == MAX_PAGES
      ensures requests <= MAX_PAGES
      ensures var listed := ListFrom(pages, 0);
              owned == if listed.Some? then Some(Own(listed.value, me, marker)) else None
    {
      hide Own;
      var matches: seq<Item> := [];
      requests := 0;
      NoneOwned(me, marker);
      while requests < MAX_PAGES
        invariant 0 <= requests <= MAX_PAGES
        invariant var listed, rest := ListFrom(pages, 0), ListFrom(pages, requests);
                  && (listed.Some? <==> rest.Some?)
                  && (rest.Some? ==> Own(listed.value, me, marker) == matches + Own(rest.value, me, marker))
      {
        var page := requests;
        requests := requests + 1;
        if pages[page].None? { return None, requests; }
        var comments := pages[page].value;
        if |comments| < PAGE_SIZE { return Some(matches + Own(comments, me, marker)), requests; }
        ghost var rest := ListFrom(pages, page + 1);
        if rest.Some? { OwnAppend(comments, rest.value, me, marker); }
        matches := matches + Own(comments, me, marker);
      }
      owned := None;
    }

    method Upsert(target: Target, r: Replies) returns (result: Result, sent: Sent, requests: nat)
      requires |r.pages| == MAX_PAGES
      modifies this
      ensures requests <= 4 + MAX_PAGES
      ensures (result, sent) == Upserted(target, r)
      ensures !sent.Nothing? || result.Published? ==> actor == r.user
    {
      hide Own, ListFrom;
      sent, requests := Nothing, 1;
      if r.first.None? || !r.first.value.confirms { return Raised, sent, requests; }
      requests := requests + 1;
      if r.user.None? { return Raised, sent, requests; }
      actor := r.user;
      var listed, pages := ListOwned(r.user.value, target.marker, r.pages);
      requests := requests + pages;
      if listed.None? || |listed.value| > 1 { return Raised, sent, requests; }
      var matches := listed.value;
      requests := requests + 1;
      if r.latest.None? || !r.latest.value.confirms || !r.policy { return Raised, sent, requests; }
      var superseded := r.first.value.head != target.head || r.latest.value.head != target.head;
      var state := if superseded then Superseded else Posted;
      if superseded && matches == [] { return Published(Superseded, None), sent, requests; }
      var body := if superseded then target.notice else target.body;
      if matches != [] && matches[0].body == body { return Published(state, Some(matches[0].id)), sent, requests; }
      requests := requests + 1;
      sent := if matches != [] then Patch(matches[0].id, body) else Post(body);
      if r.written.None? || (matches != [] && r.written.value.id != matches[0].id)
         || r.written.value.author != r.user.value || r.written.value.body != body {
        return Raised, sent, requests;
      }
      result := Published(state, Some(r.written.value.id));
    }
  }

  lemma NoneOwned(me: nat, marker: string)
    ensures Own([], me, marker) == []
  {
  }

  /** What a call reports and sends is accounted for by its replies: a whole listing, and the write's own echo. */
  ghost predicate Accounted(target: Target, r: Replies, result: Result, sent: Sent) {
    && r.user.Some? && r.first.Some? && r.latest.Some? && r.policy
    && (exists k: nat :: Listing(r.pages, k)
          && Sanctioned(Own(Flat(r.pages[..k]), r.user.value, target.marker), Stale(r, target), target, sent, result))
    && (result.Published? && !sent.Nothing? ==>
          result.comment.Some? && r.written == Some(Item(result.comment.value, r.user.value, sent.body)))
  }

  /** What a call may send and report when these are the owned comments it listed. */
  predicate Sanctioned(owned: seq<Item>, stale: bool, target: Target, sent: Sent, result: Result) {
    var body := if stale then target.notice else target.body;
    && |owned| <= 1
    && (result.Published? ==> result.state == if stale then Superseded else Posted)
    && match sent
       case Post(text) => owned == [] && !stale && text == target.body
       case Patch(id, text) =>
         owned != [] && id == owned[0].id && text == body && owned[0].body != text
         && (result.Published? ==> result.comment == Some(id))
       case Nothing =>
         result.Published? &&
         if owned == [] then stale && result.comment.None?
         else owned[0].body == body && result.comment == Some(owned[0].id)
  }

  /** A listing that ends is a whole one. */
  lemma {:induction false} ListFromIsListing(pages: seq<Option<seq<Item>>>, i: nat) returns (k: nat)
    requires |pages| <= MAX_PAGES && ListFrom(pages, i).Some?
    requires forall j :: 0 <= j < i && j < |pages| ==> pages[j].Some? && |pages[j].value| >= PAGE_SIZE
    ensures i < k && Listing(pages, k)
    ensures Flat(pages[..k]) == Flat(pages[..i]) + ListFrom(pages, i).value
    decreases |pages| - i
  {
    assert pages[..i + 1][..i] == pages[..i];
    if |pages[i].value| < PAGE_SIZE {
      k := i + 1;
    } else {
      k := ListFromIsListing(pages, i + 1);
    }
  }

  /** Whatever a call reports or sends is accounted for by its replies. */
  lemma UpsertsAreAccounted(target: Target, r: Replies)
    requires |r.pages| == MAX_PAGES
    requires var (result, sent) := Upserted(target, r); !sent.Nothing? || result.Published?
    ensures var (result, sent) := Upserted(target, r); Accounted(target, r, result, sent)
  {
    hide Own, ListFrom;
    var (result, sent) := Upserted(target, r);
    var k := ListFromIsListing(r.pages, 0);
    assert Flat(r.pages[..0]) == [];
    assert Flat(r.pages[..k]) == ListFrom(r.pages, 0).value;
    assert Sanctioned(Own(Flat(r.pages[..k]), r.user.value, target.marker), Stale(r, target), target, sent, result);
  }

  /** These are the places, in order, of the items of the account that begin with the marker's line. */
  ghost predicate Picks(items: seq<Item>, actor: nat, marker: string, at: seq<nat>) {
    && (forall i, j :: 0 <= i < j < |at| ==> at[i] < at[j])
    && (forall i :: 0 <= i < |at| ==> at[i] < |items|)
    && (forall k: nat :: k < |items| ==> (k in at <==> items[k].author == actor && marker + "\n" <= items[k].body))
  }

  lemma PicksMore(items: seq<Item>, actor: nat, marker: string, at: seq<nat>)
    requires items != [] && Picks(items[..|items| - 1], actor, marker, at)
    ensures Picks(items, actor, marker, if Owned(items[|items| - 1], actor, marker) then at + [|items| - 1] else at)
  {
    var n := |items| - 1;
    assert forall k: nat :: k < n ==> items[..n][k] == items[k];
    var more := if Owned(items[n], actor, marker) then at + [n] else at;
    forall k: nat | k < |items|
      ensures k in more <==> items[k].author == actor && marker + "\n" <= items[k].body
    {
      assert k in more <==> k in at || (k == n && Owned(items[n], actor, marker));
    }
  }

  /** The items at these places are the owned ones. */
  ghost predicate Lists(items: seq<Item>, actor: nat, marker: string, at: seq<nat>) {
    && Picks(items, actor, marker, at) && |at| == |Own(items, actor, marker)|
    && forall i :: 0 <= i < |at| ==> Own(items, actor, marker)[i] == items[at[i]]
  }

  lemma ListsMore(items: seq<Item>, actor: nat, marker: string, at: seq<nat>)
    requires items != [] && Lists(items[..|items| - 1], actor, marker, at)
    ensures Lists(items, actor, marker, if Owned(items[|items| - 1], actor, marker) then at + [|items| - 1] else at)
  {
    hide Owned, Picks;
    var n := |items| - 1;
    PicksMore(items, actor, marker, at);
    InFront(items, actor, marker, at);
  }

  lemma InFront(items: seq<Item>, actor: nat, marker: string, at: seq<nat>)
    requires items != [] && Picks(items[..|items| - 1], actor, marker, at)
    ensures forall i :: 0 <= i < |at| ==> at[i] < |items| - 1 && items[..|items| - 1][at[i]] == items[at[i]]
  {
  }

  lemma NoneListed(actor: nat, marker: string)
    ensures Lists([], actor, marker, [])
  {
  }

  /** The owned comments are exactly those of the account that begin with the marker's line, in order. */
  lemma {:induction false} OwnAt(items: seq<Item>, actor: nat, marker: string) returns (at: seq<nat>)
    ensures Lists(items, actor, marker, at)
    decreases |items|
  {
    hide Owned, Lists;
    at := [];
    if items == [] {
      NoneListed(actor, marker);
    } else {
      at := OwnAt(items[..|items| - 1], actor, marker);
      ListsMore(items, actor, marker, at);
      if Owned(items[|items| - 1], actor, marker) { at := at + [|items| - 1]; }
    }
  }

  /** A whole listing is what the client lists. */
  lemma {:induction false} ListingIsList(pages: seq<Option<seq<Item>>>, k: nat, i: nat)
    requires Listing(pages, k) && i < k
    ensures ListFrom(pages, i).Some? && Flat(pages[..k]) == Flat(pages[..i]) + ListFrom(pages, i).value
    decreases k - i
  {
    assert pages[..i + 1][..i] == pages[..i];
    if i + 1 < k {
      ListingIsList(pages, k, i + 1);
    } else {
      assert pages[..k] == pages[..i + 1];
    }
  }

  /** Every answer before the write is as it has to be, and the listing has at most one owned comment. */
  ghost predicate Trusted(r: Replies, target: Target, k: nat) {
    && r.first.Some? && r.first.value.confirms && r.user.Some?
    && Listing(r.pages, k) && |Own(Flat(r.pages[..k]), r.user.value, target.marker)| <= 1
    && r.latest.Some? && r.latest.value.confirms && r.policy
  }

  /** Without such answers a call raises and sends nothing. */
  lemma UntrustedCallsRaise(target: Target, r: Replies)
    requires |r.pages| == MAX_PAGES && forall k: nat :: !Trusted(r, target, k)
    ensures Upserted(target, r) == (Raised, Nothing)
  {
    hide Own, ListFrom, Listing;
    if r.first.Some? && r.user.Some? && ListFrom(r.pages, 0).Some? {
      var k := ListFromIsListing(r.pages, 0);
      assert Flat(r.pages[..0]) == [];
      assert Flat(r.pages[..k]) == ListFrom(r.pages, 0).value;
      assert !Trusted(r, target, k);
    }
  }

  /**
   With them it does exactly what is needed: nothing where the comment already says it or there is nothing to take
   back, else one write of the report, or of the notice when the head moved on; and it has published exactly if the
   provider echoes this write.
   */
  lemma TrustedCallsPublish(target: Target, r: Replies, k: nat)
    requires Trusted(r, target, k)
    ensures var (result, sent) := Upserted(target, r);
            var owned := Own(Flat(r.pages[..k]), r.user.value, target.marker);
            var stale := r.first.value.head != target.head || r.latest.value.head != target.head;
            var state := if stale then Superseded else Posted;
            var body := if stale then target.notice else target.body;
            if owned == [] && stale then (result, sent) == (Published(Superseded, None), Nothing)
            else if owned != [] && owned[0].body == body then
              (result, sent) == (Published(state, Some(owned[0].id)), Nothing)
            else
              && sent == (if owned == [] then Post(body) else Patch(owned[0].id, body))
              && if r.written.Some? && r.written.value.author == r.user.value && r.written.value.body == body
                    && (owned == [] || r.written.value.id == owned[0].id)
                 then result == Published(state, Some(r.written.value.id)) else result == Raised
  {
    hide Own, ListFrom;
    ListingIsList(r.pages, k, 0);
    assert Flat(r.pages[..0]) == [];
    assert Flat(r.pages[..k]) == ListFrom(r.pages, 0).value;
  }

  /** A call sends what the outbox machine's write step sends for the same listing. */
  lemma CallsAreWrites(owned: seq<Item>, target: Target, sent: Sent, result: Result, p: Phase)
    requires p.Listed? && p.row.body == target.body
    requires p.found == if owned == [] then None else Some(Comment(owned[0].id, owned[0].body))
    requires Sanctioned(owned, p.stale, target, sent, result)
    ensures !sent.Nothing? <==> Sends(p, target.notice)
    ensures sent.Post? ==> WithWrite([], p, 0, target.notice) == [Comment(0, sent.body)]
    ensures sent.Patch? ==> p.found.Some? && sent.id == p.found.value.id && sent.body == Wanted(p, target.notice)
  {
  }

  /** Requests that run one after another from `begin` on, each cut off after its timeout. */
  predicate Paced(begin: real, ends: seq<real>) {
    forall i :: 0 <= i < |ends| ==> Before(begin, ends, i) <= ends[i] <= Before(begin, ends, i) + REQUEST_SECONDS
  }

  /** When request `i` begins: where the one before it ended. */
  function Before(begin: real, ends: seq<real>, i: nat): real
    requires i < |ends|
  {
    if i == 0 then begin else ends[i - 1]
  }

  function LastOf(begin: real, ends: seq<real>): real {
    if ends == [] then begin else ends[|ends| - 1]
  }

  lemma {:induction false} PacedEnds(begin: real, ends: seq<real>)
    requires Paced(begin, ends)
    ensures begin <= LastOf(begin, ends) <= begin + REQUEST_SECONDS * |ends| as real
    decreases |ends|
  {
    hide Paced;
    if ends != [] {
      var n := |ends| - 1;
      PacedFront(begin, ends);
      PacedEnds(begin, ends[..n]);
      var time, one := REQUEST_SECONDS * n as real, REQUEST_SECONDS;
      assert REQUEST_SECONDS * |ends| as real == time + one;
    }
  }

  lemma PacedFront(begin: real, ends: seq<real>)
    requires ends != [] && Paced(begin, ends)
    ensures var front := ends[..|ends| - 1];
            && Paced(begin, front)
            && LastOf(begin, front) <= LastOf(begin, ends) <= LastOf(begin, front) + REQUEST_SECONDS
  {
    var n := |ends| - 1;
    var front := ends[..n];
    assert forall i :: 0 <= i < n ==> Before(begin, front, i) == Before(begin, ends, i) && front[i] == ends[i];
    assert LastOf(begin, front) == Before(begin, ends, n);
  }
}
