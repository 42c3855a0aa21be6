/**
 * A live window over a table: a chain of pages, each its own subscription that
 * changes on its own, repaired when a boundary moves and folded into one list.
 */
module PaginatedWindow {
  import opened Basics
  import opened Pagination

  // ----------------------------------------------------------- what a page shows

  /** Delivered data either is a page or has the wrong shape. */
  datatype Data = Proper(page: Page) | Improper

  datatype Snapshot =
    | Pending
    | Success(data: Data)
    | ApplicationError(error: string)
    | Rejected(error: string)
    | Unavailable(retained: Option<Data>, error: string)

  const MALFORMED_PAGE := "validation"

  /** Snapshots of the shared page sources; one nobody holds is pending. */
  type Snapshots = map<Cursor, Snapshot>

  function SnapshotOf(snaps: Snapshots, cursor: Cursor): Snapshot {
    if cursor in snaps then snaps[cursor] else Pending
  }

  /** The page, if its source is in success and well formed: what proves a boundary. */
  function Proven(snaps: Snapshots, cursor: Cursor): Option<Page> {
    var s := SnapshotOf(snaps, cursor);
    if s.Success? && s.data.Proper? then Some(s.data.page) else None
  }

  /** Data to show, fresh or retained. */
  function Shown(s: Snapshot): Option<Data> {
    match s
    case Success(data) => Some(data)
    case Unavailable(retained, _) => retained
    case _ => None
  }

  datatype Window =
    | WindowPending
    | WindowSuccess(items: seq<Row>, loadingMore: bool, exhausted: bool)
    | WindowApplicationError(error: string)
    | WindowRejected(error: string)
    | WindowStale(items: seq<Row>, error: string, exhausted: bool)
    | WindowUnavailable(error: string)

  // ------------------------------------------------------------------ the chain

  type Chain = seq<Cursor>

  /** The leading pages up to and including `i` are all proven. */
  predicate ProvenThrough(chain: Chain, snaps: Snapshots, i: nat) {
    i < |chain| && forall j | 0 <= j <= i :: Proven(snaps, chain[j]).Some?
  }

  /** Each page after a proven prefix starts where the prefix ends. */
  predicate Coherent(chain: Chain, snaps: Snapshots) {
    && (chain != [] ==> chain[0] == None)
    && forall i | 0 < i < |chain| && ProvenThrough(chain, snaps, i - 1) ::
         chain[i].Some? && chain[i] == Proven(snaps, chain[i - 1]).value.next
  }

  /** One pass over the chain: the first contradiction, or the first room to grow, is acted on. */
  function Repair(chain: Chain, snaps: Snapshots, depth: nat, i: nat): Chain
    decreases |chain| - i
  {
    if i >= |chain| || Proven(snaps, chain[i]).None? then chain
    else
      var next := Proven(snaps, chain[i]).value.next;
      if next.None? then chain[..i + 1]
      else if i + 1 == |chain| then (if i + 1 >= depth then chain else chain + [next])
      else if chain[i + 1] != next then chain[..i + 1] + [next]
      else Repair(chain, snaps, depth, i + 1)
  }

  /** Page `i` is proven and the next page is the one it names. */
  predicate ContinuesAt(chain: Chain, snaps: Snapshots, i: nat)
    requires i < |chain|
  {
    var page := Proven(snaps, chain[i]);
    page.Some? && page.value.next.Some? && i + 1 < |chain| && chain[i + 1] == page.value.next
  }

  /** What holds of the pages already passed. */
  predicate PassedBy(chain: Chain, snaps: Snapshots, i: nat) {
    && i <= |chain|
    && (chain != [] ==> chain[0] == None)
    && (forall j | 0 <= j < i :: Proven(snaps, chain[j]).Some?)
    && (forall j | 0 < j < |chain| && j <= i :: chain[j].Some? && chain[j] == Proven(snaps, chain[j - 1]).value.next)
  }

  /** A repaired chain is coherent, no deeper than asked, and starts at the beginning. */
  lemma {:induction false} RepairIsCoherent(chain: Chain, snaps: Snapshots, depth: nat, i: nat)
    requires PassedBy(chain, snaps, i) && |chain| <= depth
    ensures var r := Repair(chain, snaps, depth, i);
            && Coherent(r, snaps) && |r| <= depth
            && (chain != [] ==> r != [])
            && (forall j | 0 <= j < i :: j < |r| && r[j] == chain[j])
    decreases |chain| - i
  {
    hide Proven, Coherent, PassedBy;
    PassedIsCoherent(chain, snaps, i);
    if i < |chain| && Proven(snaps, chain[i]).Some? {
      var next := Proven(snaps, chain[i]).value.next;
      if next.Some? && i + 1 < |chain| && chain[i + 1] == next {
        RepairIsCoherent(chain, snaps, depth, i + 1);
      }
    }
  }

  /** A chain may be left, cut or extended where the passed pages end. */
  lemma PassedIsCoherent(chain: Chain, snaps: Snapshots, i: nat)
    requires PassedBy(chain, snaps, i)
    ensures i <= |chain|
    ensures i == |chain| || Proven(snaps, chain[i]).None? ==> Coherent(chain, snaps)
    ensures i < |chain| && Proven(snaps, chain[i]).Some? ==>
              var next := Proven(snaps, chain[i]).value.next;
              && Coherent(chain[..i + 1], snaps)
              && (next.Some? ==> Coherent(chain[..i + 1] + [next], snaps))
              && (i + 1 == |chain| ==> chain[..i + 1] == chain)
              && (i + 1 < |chain| && next.Some? && chain[i + 1] == next ==> PassedBy(chain, snaps, i + 1))
  {
    hide Proven;
  }

  /** A chain that is not contradicted loses no page, and gains at most the one after its last. */
  lemma {:induction false} RepairKeepsCoherent(chain: Chain, snaps: Snapshots, depth: nat, i: nat)
    requires Coherent(chain, snaps) && PassedBy(chain, snaps, i)
    ensures var r := Repair(chain, snaps, depth, i);
            r == chain || (|r| == |chain| + 1 && r[..|chain|] == chain)
    decreases |chain| - i
  {
    hide Proven;
    if i < |chain| && Proven(snaps, chain[i]).Some? {
      assert ProvenThrough(chain, snaps, i);
      if i + 1 < |chain| {
        assert ProvenThrough(chain, snaps, i + 1 - 1);
        RepairKeepsCoherent(chain, snaps, depth, i + 1);
      }
    }
  }

  /** Once the last page is not proven, a pass finds nothing to do. */
  lemma {:induction false} QuietPass(chain: Chain, snaps: Snapshots, depth: nat, i: nat)
    requires Coherent(chain, snaps) && PassedBy(chain, snaps, i)
    requires chain != [] && Proven(snaps, chain[|chain| - 1]).None?
    ensures Repair(chain, snaps, depth, i) == chain
    decreases |chain| - i
  {
    hide Proven;
    if i < |chain| && Proven(snaps, chain[i]).Some? {
      assert ProvenThrough(chain, snaps, i + 1 - 1);
      QuietPass(chain, snaps, depth, i + 1);
    }
  }

  /** Behind a page that is not proven nothing is repaired, whatever stands there. */
  lemma {:induction false} NothingBehindIsRepaired(chain: Chain, snaps: Snapshots, depth: nat, k: nat, i: nat)
    requires i <= k < |chain| && PassedBy(chain, snaps, k) && Proven(snaps, chain[k]).None?
    ensures Repair(chain, snaps, depth, i) == chain
    decreases k - i
  {
    hide Proven;
    if i < k {
      assert chain[i + 1].Some? && chain[i + 1] == Proven(snaps, chain[i + 1 - 1]).value.next;
      NothingBehindIsRepaired(chain, snaps, depth, k, i + 1);
    }
  }

  /** Page `i` is proven to end, or to be followed by another page than the one that stands there. */
  predicate BrokenAt(chain: Chain, snaps: Snapshots, i: nat) {
    i + 1 < |chain| && Proven(snaps, chain[i]).Some? && !ContinuesAt(chain, snaps, i)
  }

  /** Every proven page is followed by the page it names. */
  ghost predicate Linked(chain: Chain, snaps: Snapshots) {
    forall i: nat :: !BrokenAt(chain, snaps, i)
  }

  /** How many leading pages are proven. */
  function ProvenPages(chain: Chain, snaps: Snapshots): (k: nat)
    ensures k <= |chain|
    ensures forall i | 0 <= i < k :: Proven(snaps, chain[i]).Some?
    ensures k < |chain| ==> Proven(snaps, chain[k]).None?
  {
    if chain == [] || Proven(snaps, chain[0]).None? then 0 else 1 + ProvenPages(chain[1..], snaps)
  }

  /**
   * A pass that meets no broken link changes nothing, but that a chain proven
   * throughout grows by the page its last one names while it is not deep enough.
   */
  lemma {:induction false} UnbrokenPass(chain: Chain, snaps: Snapshots, depth: nat, i: nat)
    requires i <= ProvenPages(chain, snaps) && (chain != [] ==> i < |chain|)
    requires forall j: nat | i <= j < ProvenPages(chain, snaps) :: !BrokenAt(chain, snaps, j)
    ensures Repair(chain, snaps, depth, i) ==
            if 0 < |chain| == ProvenPages(chain, snaps) && |chain| < depth &&
               Proven(snaps, chain[|chain| - 1]).value.next.Some?
            then chain + [Proven(snaps, chain[|chain| - 1]).value.next]
            else chain
    decreases |chain| - i
  {
    hide Proven, ProvenPages;
    if i < ProvenPages(chain, snaps) && i + 1 < |chain| {
      assert !BrokenAt(chain, snaps, i);
      UnbrokenPass(chain, snaps, depth, i + 1);
    }
  }

  /** A pass that meets a broken link cuts there, goes on with the page named, and leaves no broken link. */
  lemma {:induction false} BrokenPass(chain: Chain, snaps: Snapshots, depth: nat, i: nat, b: nat)
    requires i <= b < ProvenPages(chain, snaps) && BrokenAt(chain, snaps, b)
    requires forall j: nat | j < b :: !BrokenAt(chain, snaps, j)
    ensures Linked(Repair(chain, snaps, depth, i), snaps)
    ensures var next := Proven(snaps, chain[b]).value.next;
            Repair(chain, snaps, depth, i) == chain[..b + 1] + if next.Some? then [next] else []
    decreases b - i
  {
    hide Proven, ProvenPages;
    if i < b {
      assert !BrokenAt(chain, snaps, i);
      BrokenPass(chain, snaps, depth, i + 1, b);
    } else {
      var r := Repair(chain, snaps, depth, i);
      forall j: nat | j + 1 < |r|
        ensures !BrokenAt(r, snaps, j)
      {
        if j < b { assert !BrokenAt(chain, snaps, j); }
      }
    }
  }

  /**
   * A pass looks only at the leading pages that are proven. With k of them, every
   * proven page is followed by the page it names afterwards if and only if a link
   * among the first k was broken, so that the rest was let go, or no link from
   * page k on was.
   */
  lemma PassLinksExactlyWhen(chain: Chain, snaps: Snapshots, depth: nat)
    ensures var k := ProvenPages(chain, snaps);
            Linked(Repair(chain, snaps, depth, 0), snaps) <==>
              || (exists i: nat | i < k :: BrokenAt(chain, snaps, i))
              || (forall i: nat | i >= k :: !BrokenAt(chain, snaps, i))
  {
    hide Proven, ProvenPages, ContinuesAt;
    var k, r := ProvenPages(chain, snaps), Repair(chain, snaps, depth, 0);
    if i: nat :| i < k && BrokenAt(chain, snaps, i) {
      var b := FirstBroken(chain, snaps, i);
      BrokenPass(chain, snaps, depth, 0, b);
    } else {
      UnbrokenPass(chain, snaps, depth, 0);
      SameLinks(chain, r, snaps);
    }
  }

  lemma {:induction false} FirstBroken(chain: Chain, snaps: Snapshots, i: nat) returns (b: nat)
    requires BrokenAt(chain, snaps, i)
    ensures b <= i && BrokenAt(chain, snaps, b) && forall j: nat | j < b :: !BrokenAt(chain, snaps, j)
  {
    hide BrokenAt;
    if j: nat :| j < i && BrokenAt(chain, snaps, j) { b := FirstBroken(chain, snaps, j); } else { b := i; }
  }

  lemma SameLinks(chain: Chain, r: Chain, snaps: Snapshots)
    requires r == chain || (chain != [] && Proven(snaps, chain[|chain| - 1]).Some? &&
                            r == chain + [Proven(snaps, chain[|chain| - 1]).value.next])
    requires r != chain ==> r[|chain|].Some?
    ensures Linked(r, snaps) <==> Linked(chain, snaps)
  {
    hide Proven;
    forall i: nat | i + 1 < |r|
      ensures BrokenAt(r, snaps, i) <==> BrokenAt(chain, snaps, i)
    {
    }
    if Linked(r, snaps) { assert forall i: nat :: BrokenAt(chain, snaps, i) ==> BrokenAt(r, snaps, i); }
    if Linked(chain, snaps) { assert forall i: nat :: BrokenAt(r, snaps, i) ==> BrokenAt(chain, snaps, i); }
  }

  /** Changes elsewhere do not touch a chain's coherence. */
  lemma CoherenceIsLocal(chain: Chain, snaps: Snapshots, cursor: Cursor, s: Snapshot)
    requires Coherent(chain, snaps) && cursor !in chain
    ensures Coherent(chain, snaps[cursor := s])
  {
    var after := snaps[cursor := s];
    assert forall j | 0 <= j < |chain| :: Proven(after, chain[j]) == Proven(snaps, chain[j]);
    forall i | 0 < i < |chain| && ProvenThrough(chain, after, i - 1)
      ensures chain[i].Some? && chain[i] == Proven(after, chain[i - 1]).value.next
    {
      assert ProvenThrough(chain, snaps, i - 1);
    }
  }

  /** Growing by the page the last one names keeps the chain coherent, whatever the new page shows. */
  lemma GrowthIsCoherent(chain: Chain, snaps: Snapshots)
    requires Coherent(chain, snaps) && chain != []
    requires Proven(snaps, chain[|chain| - 1]).Some? && Proven(snaps, chain[|chain| - 1]).value.next.Some?
    ensures Coherent(chain + [Proven(snaps, chain[|chain| - 1]).value.next], snaps)
  {
    var longer := chain + [Proven(snaps, chain[|chain| - 1]).value.next];
    forall i | 0 < i < |longer| && ProvenThrough(longer, snaps, i - 1)
      ensures longer[i].Some? && longer[i] == Proven(snaps, longer[i - 1]).value.next
    {
      if i < |chain| {
        forall j | 0 <= j <= i - 1
          ensures Proven(snaps, chain[j]).Some?
        {
          assert chain[j] == longer[j];
        }
        assert ProvenThrough(chain, snaps, i - 1);
      }
    }
  }

  /** A page that fails on subscribing proves less than before. */
  lemma FailureIsCoherent(chain: Chain, snaps: Snapshots, cursor: Cursor, s: Snapshot)
    requires Coherent(chain, snaps) && !s.Success?
    ensures Coherent(chain, snaps[cursor := s])
  {
    var after := snaps[cursor := s];
    forall i | 0 < i < |chain| && ProvenThrough(chain, after, i - 1)
      ensures chain[i].Some? && chain[i] == Proven(after, chain[i - 1]).value.next
    {
      forall j | 0 <= j <= i - 1
        ensures Proven(snaps, chain[j]) == Proven(after, chain[j])
      {
        assert Proven(after, chain[j]).Some?;
      }
      assert ProvenThrough(chain, snaps, i - 1);
    }
  }

  // -------------------------------------------------------------------- folding

  /** How many leading pages have data to show. */
  function Leading(chain: Chain, snaps: Snapshots): (n: nat)
    ensures n <= |chain|
    ensures forall i | 0 <= i < n :: Shown(SnapshotOf(snaps, chain[i])).Some?
    ensures n < |chain| ==> Shown(SnapshotOf(snaps, chain[n])).None?
  {
    if chain == [] || Shown(SnapshotOf(snaps, chain[0])).None? then 0
    else 1 + Leading(chain[1..], snaps)
  }

  predicate AllProper(chain: Chain, snaps: Snapshots) {
    forall c | c in chain :: Shown(SnapshotOf(snaps, c)).Some? && Shown(SnapshotOf(snaps, c)).value.Proper?
  }

  function PageAt(snaps: Snapshots, cursor: Cursor): Page {
    var data := Shown(SnapshotOf(snaps, cursor));
    if data.Some? && data.value.Proper? then data.value.page else Page([], None)
  }

  function Rows(chain: Chain, snaps: Snapshots): seq<Row> {
    if chain == [] then []
    else Rows(chain[..|chain| - 1], snaps) + PageAt(snaps, chain[|chain| - 1]).items
  }

  /** The first page that is unavailable, if any. */
  function FirstOutage(chain: Chain, snaps: Snapshots): Option<string> {
    if chain == [] then None
    else
      var earlier := FirstOutage(chain[..|chain| - 1], snaps);
      var s := SnapshotOf(snaps, chain[|chain| - 1]);
      if earlier.Some? then earlier else if s.Unavailable? then Some(s.error) else None
  }

  function Settled(items: seq<Row>, outage: Option<string>, exhausted: bool): Window {
    match outage
    case None => WindowSuccess(items, false, exhausted)
    case Some(error) => if items == [] then WindowUnavailable(error) else WindowStale(items, error, exhausted)
  }

  /** What the window reports at the first page without data. */
  function Cut(items: seq<Row>, outage: Option<string>, first: bool, s: Snapshot): Window {
    match s
    case Pending =>
      if first then WindowPending
      else if outage.None? then WindowSuccess(items, true, false)
      else WindowStale(items, outage.value, false)
    case ApplicationError(error) => WindowApplicationError(error)
    case Rejected(error) => WindowRejected(error)
    case Unavailable(_, error) => if items == [] then WindowUnavailable(error) else WindowStale(items, error, false)
    case Success(_) => WindowPending
  }

  /** The window a chain shows: the rows of its leading pages, and what stands after them. */
  function Folded(chain: Chain, snaps: Snapshots): Window {
    var n := Leading(chain, snaps);
    var shown := chain[..n];
    if !AllProper(shown, snaps) then WindowRejected(MALFORMED_PAGE)
    else if n < |chain| then
      Cut(Rows(shown, snaps), FirstOutage(shown, snaps), n == 0, SnapshotOf(snaps, chain[n]))
    else
      Settled(Rows(shown, snaps), FirstOutage(shown, snaps), n > 0 && PageAt(snaps, chain[n - 1]).next.None?)
  }

  lemma {:induction false} OutageAbsent(chain: Chain, snaps: Snapshots)
    requires FirstOutage(chain, snaps).None?
    ensures forall c | c in chain :: !SnapshotOf(snaps, c).Unavailable?
  {
    if chain != [] {
      var rest := chain[..|chain| - 1];
      OutageAbsent(rest, snaps);
      assert chain == rest + [chain[|chain| - 1]];
    }
  }

  /** A window in success shows only proven pages. */
  lemma SuccessIsProven(chain: Chain, snaps: Snapshots)
    requires Folded(chain, snaps).WindowSuccess?
    ensures var n := Leading(chain, snaps);
            && Folded(chain, snaps).items == Rows(chain[..n], snaps)
            && (chain != [] ==>
                  && n > 0
                  && (Folded(chain, snaps).exhausted <==> n == |chain| && PageAt(snaps, chain[n - 1]).next.None?))
            && (forall i | 0 <= i < n :: Proven(snaps, chain[i]) == Some(PageAt(snaps, chain[i])))
  {
    var n := Leading(chain, snaps);
    var shown := chain[..n];
    OutageAbsent(shown, snaps);
    forall i | 0 <= i < n
      ensures Proven(snaps, chain[i]) == Some(PageAt(snaps, chain[i]))
    {
      assert shown[i] in shown;
    }
  }

  // ------------------------------------------------------------- reading the window

  /** A page with data to show, which has the shape of a page. */
  predicate ShowsPage(s: Snapshot) {
    || (s.Success? && s.data.Proper?)
    || (s.Unavailable? && s.retained.Some? && s.retained.value.Proper?)
  }

  /** A page with data to show, which has not. */
  predicate ShowsMalformed(s: Snapshot) {
    || (s.Success? && s.data.Improper?)
    || (s.Unavailable? && s.retained.Some? && s.retained.value.Improper?)
  }

  predicate ShowsNothing(s: Snapshot) {
    !ShowsPage(s) && !ShowsMalformed(s)
  }

  function PageShown(s: Snapshot): Page
    requires ShowsPage(s)
  {
    if s.Success? then s.data.page else s.retained.value.page
  }

  /** The first `n` pages all show a page. */
  predicate AllShow(chain: Chain, snaps: Snapshots, n: nat) {
    n <= |chain| && forall i | 0 <= i < n :: ShowsPage(SnapshotOf(snaps, chain[i]))
  }

  /** Their rows, page after page. */
  function RowsShown(chain: Chain, snaps: Snapshots, n: nat): seq<Row>
    requires AllShow(chain, snaps, n)
  {
    if n == 0 then []
    else PageShown(SnapshotOf(snaps, chain[0])).items + RowsShown(chain[1..], snaps, n - 1)
  }

  /** Page `k` is the first of the first `n` pages that is unavailable. */
  predicate FirstOut(chain: Chain, snaps: Snapshots, n: nat, k: nat) {
    && k < n <= |chain| && SnapshotOf(snaps, chain[k]).Unavailable?
    && forall i | 0 <= i < k :: !SnapshotOf(snaps, chain[i]).Unavailable?
  }

  predicate NoneOut(chain: Chain, snaps: Snapshots, n: nat) {
    n <= |chain| && forall i | 0 <= i < n :: !SnapshotOf(snaps, chain[i]).Unavailable?
  }

  /** The window shows the rows of `n` pages: stale, with the first error, when one of them is unavailable. */
  ghost predicate ShowsRows(chain: Chain, snaps: Snapshots, n: nat, loadingMore: bool, exhausted: bool, w: Window)
    requires AllShow(chain, snaps, n)
  {
    var items := RowsShown(chain, snaps, n);
    && (NoneOut(chain, snaps, n) ==> w == WindowSuccess(items, loadingMore, exhausted))
    && forall k: nat | FirstOut(chain, snaps, n, k) ::
         var error := SnapshotOf(snaps, chain[k]).error;
         w == if items == [] && !loadingMore then WindowUnavailable(error) else WindowStale(items, error, exhausted)
  }

  /** What the window shows when page `n` is the first that shows nothing. */
  ghost predicate ShowsUntil(chain: Chain, snaps: Snapshots, n: nat, w: Window)
    requires n < |chain| && AllShow(chain, snaps, n)
  {
    match SnapshotOf(snaps, chain[n])
    case Pending => if n == 0 then w == WindowPending else ShowsRows(chain, snaps, n, true, false, w)
    case ApplicationError(error) => w == WindowApplicationError(error)
    case Rejected(error) => w == WindowRejected(error)
    case Unavailable(_, error) =>
      var items := RowsShown(chain, snaps, n);
      w == if items == [] then WindowUnavailable(error) else WindowStale(items, error, false)
    case Success(_) => true
  }

  /**
   * What a window reads as. The first page that does not show a page decides: data
   * of the wrong shape rejects the window, anything else ends it there. When every
   * page shows one, the window shows all their rows and whether the last is the end.
   */
  ghost predicate Reads(chain: Chain, snaps: Snapshots, w: Window) {
    && (AllShow(chain, snaps, |chain|) ==>
          var end := chain != [] && PageShown(SnapshotOf(snaps, chain[|chain| - 1])).next.None?;
          ShowsRows(chain, snaps, |chain|, false, end, w))
    && forall n: nat | n < |chain| && AllShow(chain, snaps, n) ::
         var s := SnapshotOf(snaps, chain[n]);
         && (ShowsMalformed(s) ==> w == WindowRejected(MALFORMED_PAGE))
         && (ShowsNothing(s) ==> ShowsUntil(chain, snaps, n, w))
  }

  lemma {:induction false} RowsAreShown(chain: Chain, snaps: Snapshots, n: nat)
    requires AllShow(chain, snaps, n)
    ensures Rows(chain[..n], snaps) == RowsShown(chain, snaps, n)
  {
    if n > 0 {
      RowsFromTheFront(chain[..n], snaps);
      assert chain[..n][1..] == chain[1..][..n - 1];
      RowsAreShown(chain[1..], snaps, n - 1);
    }
  }

  lemma {:induction false} RowsFromTheFront(chain: Chain, snaps: Snapshots)
    requires chain != []
    ensures Rows(chain, snaps) == PageAt(snaps, chain[0]).items + Rows(chain[1..], snaps)
  {
    hide PageAt;
    var rest := chain[..|chain| - 1];
    if rest == [] {
      assert chain[1..] == [];
    } else {
      RowsFromTheFront(rest, snaps);
      assert rest[1..] == chain[1..][..|chain| - 2];
    }
  }

  lemma {:induction false} FirstOutageIs(chain: Chain, snaps: Snapshots, n: nat)
    requires n <= |chain|
    ensures FirstOutage(chain[..n], snaps).None? <==> NoneOut(chain, snaps, n)
    ensures forall k: nat | FirstOut(chain, snaps, n, k) ::
              FirstOutage(chain[..n], snaps) == Some(SnapshotOf(snaps, chain[k]).error)
  {
    if n > 0 {
      FirstOutageIs(chain, snaps, n - 1);
      assert chain[..n][..n - 1] == chain[..n - 1];
      forall k: nat | FirstOut(chain, snaps, n, k)
        ensures FirstOutage(chain[..n], snaps) == Some(SnapshotOf(snaps, chain[k]).error)
      {
        if k < n - 1 { assert FirstOut(chain, snaps, n - 1, k); }
      }
    }
  }

  lemma LeadingIs(chain: Chain, snaps: Snapshots, n: nat)
    requires AllShow(chain, snaps, n)
    ensures n <= Leading(chain, snaps)
    ensures AllProper(chain[..n], snaps)
    ensures n < |chain| && ShowsNothing(SnapshotOf(snaps, chain[n])) ==> Leading(chain, snaps) == n
    ensures n < |chain| && ShowsMalformed(SnapshotOf(snaps, chain[n])) ==>
              n < Leading(chain, snaps) && !AllProper(chain[..Leading(chain, snaps)], snaps)
  {
    var m := Leading(chain, snaps);
    assert m < n ==> ShowsPage(SnapshotOf(snaps, chain[m]));
    if n < m { assert chain[..m][n] == chain[n]; }
  }

  lemma FoldShowsRows(chain: Chain, snaps: Snapshots, n: nat, loadingMore: bool, exhausted: bool)
    requires AllShow(chain, snaps, n)
    ensures var items, outage := Rows(chain[..n], snaps), FirstOutage(chain[..n], snaps);
            ShowsRows(chain, snaps, n, loadingMore, exhausted,
                      if outage.None? then WindowSuccess(items, loadingMore, exhausted)
                      else if items == [] && !loadingMore then WindowUnavailable(outage.value)
                      else WindowStale(items, outage.value, exhausted))
  {
    hide Rows, FirstOutage, RowsShown, SnapshotOf;
    RowsAreShown(chain, snaps, n);
    FirstOutageIs(chain, snaps, n);
  }

  /** The fold reads as it should. */
  lemma FoldReads(chain: Chain, snaps: Snapshots)
    ensures Reads(chain, snaps, Folded(chain, snaps))
  {
    hide Rows, FirstOutage, RowsShown, Leading, ShowsRows, AllProper;
    var w := Folded(chain, snaps);
    if AllShow(chain, snaps, |chain|) {
      LeadingIs(chain, snaps, |chain|);
      assert chain[..|chain|] == chain;
      FoldShowsRows(chain, snaps, |chain|, false,
                    chain != [] && PageShown(SnapshotOf(snaps, chain[|chain| - 1])).next.None?);
    }
    forall n: nat | n < |chain| && AllShow(chain, snaps, n)
      ensures ShowsMalformed(SnapshotOf(snaps, chain[n])) ==> w == WindowRejected(MALFORMED_PAGE)
      ensures ShowsNothing(SnapshotOf(snaps, chain[n])) ==> ShowsUntil(chain, snaps, n, w)
    {
      LeadingIs(chain, snaps, n);
      FoldShowsRows(chain, snaps, n, true, false);
      RowsAreShown(chain, snaps, n);
    }
  }

  /** A chain is shown whole, or there is a first page that does not show a page. */
  lemma {:induction false} WhereReadingEnds(chain: Chain, snaps: Snapshots, n: nat) returns (m: nat)
    requires AllShow(chain, snaps, n)
    ensures n <= m && AllShow(chain, snaps, m) && (m < |chain| ==> !ShowsPage(SnapshotOf(snaps, chain[m])))
    decreases |chain| - n
  {
    if n < |chain| && ShowsPage(SnapshotOf(snaps, chain[n])) {
      m := WhereReadingEnds(chain, snaps, n + 1);
    } else {
      m := n;
    }
  }

  lemma {:induction false} SomeFirstOut(chain: Chain, snaps: Snapshots, n: nat)
    requires n <= |chain|
    ensures NoneOut(chain, snaps, n) || exists k: nat :: FirstOut(chain, snaps, n, k)
  {
    if n > 0 {
      SomeFirstOut(chain, snaps, n - 1);
      if !NoneOut(chain, snaps, n - 1) {
        var k: nat :| FirstOut(chain, snaps, n - 1, k);
        assert FirstOut(chain, snaps, n, k);
      } else if SnapshotOf(snaps, chain[n - 1]).Unavailable? {
        assert FirstOut(chain, snaps, n, n - 1);
      }
    }
  }

  lemma RowsReadOneWay(chain: Chain, snaps: Snapshots, n: nat, loadingMore: bool, exhausted: bool, w: Window, v: Window)
    requires AllShow(chain, snaps, n)
    requires ShowsRows(chain, snaps, n, loadingMore, exhausted, w)
    requires ShowsRows(chain, snaps, n, loadingMore, exhausted, v)
    ensures w == v
  {
    SomeFirstOut(chain, snaps, n);
  }

  /** The reading leaves nothing open: it determines the window. */
  lemma ReadingIsUnique(chain: Chain, snaps: Snapshots, w: Window, v: Window)
    requires Reads(chain, snaps, w) && Reads(chain, snaps, v)
    ensures w == v
  {
    hide ShowsRows, RowsShown;
    var n := WhereReadingEnds(chain, snaps, 0);
    if n == |chain| {
      var end := chain != [] && PageShown(SnapshotOf(snaps, chain[n - 1])).next.None?;
      RowsReadOneWay(chain, snaps, n, false, end, w, v);
    } else if SnapshotOf(snaps, chain[n]).Pending? && n > 0 {
      assert ShowsNothing(SnapshotOf(snaps, chain[n]));
      RowsReadOneWay(chain, snaps, n, true, false, w, v);
    }
  }

  // ---------------------------------------------------------------- through an outage

  /** Some pages in success have become unavailable, keeping their data. */
  predicate Outage(chain: Chain, snaps: Snapshots, after: Snapshots) {
    forall c | c in chain ::
      var s, t := SnapshotOf(snaps, c), SnapshotOf(after, c);
      t == s || (s.Success? && t.Unavailable? && t.retained == Some(s.data))
  }

  lemma OutageKeepsPages(chain: Chain, snaps: Snapshots, after: Snapshots)
    requires Outage(chain, snaps, after) && Folded(chain, snaps).WindowSuccess?
    ensures var n := Leading(chain, snaps);
            && Leading(chain, after) == n && AllProper(chain[..n], after)
            && (forall i | 0 <= i < n :: PageAt(after, chain[i]) == PageAt(snaps, chain[i]))
            && (n < |chain| ==> SnapshotOf(snaps, chain[n]) == SnapshotOf(after, chain[n]) == Pending)
  {
    hide Rows, FirstOutage;
    var n := Leading(chain, snaps);
    SuccessIsProven(chain, snaps);
    forall i | 0 <= i < n
      ensures PageAt(after, chain[i]) == PageAt(snaps, chain[i]) && ShowsPage(SnapshotOf(after, chain[i]))
    {
      assert chain[i] in chain;
    }
    assert AllShow(chain, after, n);
    if n < |chain| { assert chain[n] in chain; }
    LeadingIs(chain, after, n);
  }

  /** A window in success keeps its rows through an outage, and says so. */
  lemma OutageKeepsItems(chain: Chain, snaps: Snapshots, after: Snapshots)
    requires Outage(chain, snaps, after) && Folded(chain, snaps).WindowSuccess?
    ensures var w, v := Folded(chain, snaps), Folded(chain, after);
            if NoneOut(chain, after, Leading(chain, snaps)) then v == w
            else if w.items == [] && !w.loadingMore then v.WindowUnavailable?
            else v.WindowStale? && v.items == w.items && v.exhausted == w.exhausted
  {
    hide Rows, FirstOutage, Leading, AllProper, Outage, Shown, PageAt, NoneOut, SnapshotOf;
    var n := Leading(chain, snaps);
    OutageKeepsPages(chain, snaps, after);
    SameRows(chain, snaps, after, n);
    FirstOutageIs(chain, after, n);
  }

  lemma {:induction false} SameRows(chain: Chain, snaps: Snapshots, after: Snapshots, n: nat)
    requires n <= |chain| && forall i | 0 <= i < n :: PageAt(after, chain[i]) == PageAt(snaps, chain[i])
    ensures Rows(chain[..n], after) == Rows(chain[..n], snaps)
  {
    hide PageAt;
    if n > 0 {
      SameRows(chain, snaps, after, n - 1);
      RowsOfOneMore(chain, snaps, n);
      RowsOfOneMore(chain, after, n);
    }
  }

  // --------------------------------------------------------- the table it stands for

  /** The first `n` pages were read from one version of the table. */
  predicate FromOneVersion(table: seq<Row>, chain: Chain, snaps: Snapshots, n: nat) {
    n <= |chain| && forall i | 0 <= i < n :: IsPage(table, chain[i], PageAt(snaps, chain[i]))
  }

  /** Where page `i` ends in the table. */
  function EndOf(table: seq<Row>, chain: Chain, snaps: Snapshots, i: nat): nat
    requires i < |chain|
  {
    After(table, chain[i]) + |PageAt(snaps, chain[i]).items|
  }

  /** Coherent pages of one version join without gap or overlap. */
  lemma {:induction false} PagesJoin(table: seq<Row>, chain: Chain, snaps: Snapshots, n: nat)
    requires InOrder(table) && Coherent(chain, snaps) && FromOneVersion(table, chain, snaps, n) && n > 0
    requires forall i | 0 <= i < n :: Proven(snaps, chain[i]) == Some(PageAt(snaps, chain[i]))
    ensures EndOf(table, chain, snaps, n - 1) <= |table|
    ensures Rows(chain[..n], snaps) == table[..EndOf(table, chain, snaps, n - 1)]
  {
    hide Proven, PageAt, Rows, Coherent, After, InOrder;
    var last := chain[n - 1];
    RowsOfOneMore(chain, snaps, n);
    assert IsPage(table, last, PageAt(snaps, last));
    if n > 1 {
      PagesJoin(table, chain, snaps, n - 1);
      Follows(chain, snaps, n - 1);
      NextPageStarts(table, chain[n - 2], PageAt(snaps, chain[n - 2]));
    } else {
      Begins(chain, snaps);
      FirstPageStarts(table, chain, snaps);
    }
  }

  lemma FirstPageStarts(table: seq<Row>, chain: Chain, snaps: Snapshots)
    ensures After(table, None) == 0 && Rows(chain[..0], snaps) == []
  {
  }

  lemma RowsOfOneMore(chain: Chain, snaps: Snapshots, n: nat)
    requires 0 < n <= |chain|
    ensures Rows(chain[..n], snaps) == Rows(chain[..n - 1], snaps) + PageAt(snaps, chain[n - 1]).items
  {
    assert chain[..n][..n - 1] == chain[..n - 1];
  }

  lemma Follows(chain: Chain, snaps: Snapshots, i: nat)
    requires Coherent(chain, snaps) && 0 < i < |chain|
    requires forall j | 0 <= j < i :: Proven(snaps, chain[j]).Some?
    ensures chain[i].Some? && chain[i] == Proven(snaps, chain[i - 1]).value.next
  {
    hide Proven;
    assert ProvenThrough(chain, snaps, i - 1);
  }

  lemma NextPageStarts(table: seq<Row>, cursor: Cursor, page: Page)
    requires InOrder(table) && IsPage(table, cursor, page) && page.next.Some?
    ensures After(table, page.next) == After(table, cursor) + |page.items| < |table|
  {
    AfterOwnRow(table, After(table, cursor) + |page.items| - 1);
  }

  /**
   * A window in success over pages of one table version is a prefix of the table,
   * and says it is exhausted exactly when it is the whole of it.
   */
  lemma WindowIsAPrefix(table: seq<Row>, chain: Chain, snaps: Snapshots)
    requires InOrder(table) && chain != [] && Coherent(chain, snaps)
    requires Folded(chain, snaps).WindowSuccess?
    requires FromOneVersion(table, chain, snaps, Leading(chain, snaps))
    ensures var w := Folded(chain, snaps);
            && |w.items| <= |table| && w.items == table[..|w.items|]
            && (w.exhausted <==> w.items == table)
  {
    hide Proven, PageAt, Folded, Rows, Leading, Coherent, After, InOrder;
    var n := Leading(chain, snaps);
    SuccessIsProven(chain, snaps);
    PagesJoin(table, chain, snaps, n);
    var last := PageAt(snaps, chain[n - 1]);
    assert IsPage(table, chain[n - 1], last);
    if n < |chain| { Follows(chain, snaps, n); }
    if last.next.Some? { NextPageStarts(table, chain[n - 1], last); }
  }

  lemma PrefixHas(table: seq<Row>, n: nat, j: nat)
    requires n <= |table| && j < |table|
    ensures j < n ==> table[j] in table[..n]
  {
    if j < n { assert table[..n][j] == table[j]; }
  }

  /** So no row is missing before the end of the window and none appears twice. */
  lemma WindowRowsAreDistinct(table: seq<Row>, chain: Chain, snaps: Snapshots)
    requires InOrder(table) && chain != [] && Coherent(chain, snaps)
    requires Folded(chain, snaps).WindowSuccess?
    requires FromOneVersion(table, chain, snaps, Leading(chain, snaps))
    ensures InOrder(Folded(chain, snaps).items)
    ensures forall row | row in table && row !in Folded(chain, snaps).items ::
              forall shown | shown in Folded(chain, snaps).items :: shown.key < row.key
  {
    hide Folded, Coherent, FromOneVersion;
    WindowIsAPrefix(table, chain, snaps);
    var items := Folded(chain, snaps).items;
    forall row | row in table && row !in items
      ensures forall shown | shown in items :: shown.key < row.key
    {
      var j :| 0 <= j < |table| && table[j] == row;
      PrefixHas(table, |items|, j);
    }
  }

  // -------------------------------------------------------- which sources are held

  function Cursors(chain: Chain): set<Cursor> {
    set c | c in chain
  }

  predicate Distinct(chain: Chain) {
    forall i, j | 0 <= i < j < |chain| :: chain[i] != chain[j]
  }

  /** How many leading pages two chains have in common. */
  function Shared(a: Chain, b: Chain): (n: nat)
    ensures n <= |a| && n <= |b| && a[..n] == b[..n]
    ensures n < |a| && n < |b| ==> a[n] != b[n]
  {
    if a == [] || b == [] || a[0] != b[0] then 0 else 1 + Shared(a[1..], b[1..])
  }

  lemma SharedIs(a: Chain, b: Chain, n: nat)
    requires n <= |a| && n <= |b| && a[..n] == b[..n]
    requires n < |a| && n < |b| ==> a[n] != b[n]
    ensures Shared(a, b) == n
  {
    var m := Shared(a, b);
    assert forall k | 0 <= k < n :: a[k] == a[..n][k] == b[..n][k] == b[k];
    assert forall k | 0 <= k < m :: a[k] == a[..m][k] == b[..m][k] == b[k];
  }

  /**
   * The sources listened to once a chain has become another. A window listens to
   * each source once however often it stands in the chain, so letting go of one
   * page stops listening for all that share its source.
   */
  function HeldAfter(held: set<Cursor>, before: Chain, after: Chain): set<Cursor> {
    var n := Shared(before, after);
    held - Cursors(before[n..]) + Cursors(after[n..])
  }

  /** What is held stays the chain if and only if no source let go of still stands in it. */
  lemma HeldIsTheChainExactlyWhen(before: Chain, after: Chain)
    ensures var n := Shared(before, after);
            HeldAfter(Cursors(before), before, after) == Cursors(after) <==>
              Cursors(before[n..]) * Cursors(before[..n]) <= Cursors(after[n..])
  {
    var n := Shared(before, after);
    assert before == before[..n] + before[n..] && after == after[..n] + after[n..];
    var held := HeldAfter(Cursors(before), before, after);
    assert Cursors(after) == Cursors(before[..n]) + Cursors(after[n..]);
    assert Cursors(before) == Cursors(before[..n]) + Cursors(before[n..]);
    if held == Cursors(after) {
      forall c | c in Cursors(before[n..]) * Cursors(before[..n])
        ensures c in Cursors(after[n..])
      {
        assert c in held;
      }
    }
  }

  /** So it stays the chain wherever the chain is cut if and only if its cursors are distinct. */
  lemma CutsKeepExactlyWhen(chain: Chain)
    ensures Distinct(chain) <==>
              forall n: nat | n <= |chain| :: HeldAfter(Cursors(chain), chain, chain[..n]) == Cursors(chain[..n])
  {
    hide HeldAfter, Shared;
    if Distinct(chain) {
      forall n: nat | n <= |chain|
        ensures HeldAfter(Cursors(chain), chain, chain[..n]) == Cursors(chain[..n])
      {
        SharedIs(chain, chain[..n], n);
        HeldIsTheChainExactlyWhen(chain, chain[..n]);
      }
    } else {
      var i, j :| 0 <= i < j < |chain| && chain[i] == chain[j];
      SharedIs(chain, chain[..j], j);
      HeldIsTheChainExactlyWhen(chain, chain[..j]);
      assert chain[j..][0] == chain[j] && chain[..j][i] == chain[i];
      assert chain[j] in Cursors(chain[j..]) * Cursors(chain[..j]);
      assert HeldAfter(Cursors(chain), chain, chain[..j]) != Cursors(chain[..j]);
    }
  }

  /** A repair pass over distinct cursors keeps what is held the chain. */
  lemma DistinctStaysHeld(before: Chain, after: Chain)
    requires Distinct(before)
    ensures HeldAfter(Cursors(before), before, after) == Cursors(after)
  {
    HeldIsTheChainExactlyWhen(before, after);
  }

  // ---------------------------------------------------------------- keyset pages

  predicate Precedes(a: Cursor, b: Cursor) {
    b.Some? && (a.None? || a.value < b.value)
  }

  /** A page that names a next one names a later one. */
  predicate GoesForward(cursor: Cursor, s: Snapshot) {
    s.Success? && s.data.Proper? && s.data.page.next.Some? ==> Precedes(cursor, s.data.page.next)
  }

  predicate AllGoForward(snaps: Snapshots) {
    forall c | c in snaps :: GoesForward(c, snaps[c])
  }

  predicate Ascending(chain: Chain) {
    forall i, j | 0 <= i < j < |chain| :: Precedes(chain[i], chain[j])
  }

  lemma {:induction false} RowsAfterAreLater(table: seq<Row>, key: int, i: nat)
    requires InOrder(table) && CountUpTo(table, key) <= i < |table|
    ensures table[i].key > key
  {
    if table[0].key > key {
      assert i > 0 ==> table[0].key < table[i].key;
    } else {
      RowsAfterAreLater(table[1..], key, i - 1);
    }
  }

  /** Pages of an ordered table go forward, whichever version of it they were read from. */
  lemma KeysetPagesGoForward(table: seq<Row>, cursor: Cursor, page: Page)
    requires InOrder(table) && IsPage(table, cursor, page)
    ensures GoesForward(cursor, Success(Proper(page)))
  {
    if page.next.Some? && cursor.Some? {
      RowsAfterAreLater(table, cursor.value, After(table, cursor) + |page.items| - 1);
    }
  }

  lemma AscendingIsDistinct(chain: Chain)
    requires Ascending(chain)
    ensures Distinct(chain)
  {
    forall i, j | 0 <= i < j < |chain|
      ensures chain[i] != chain[j]
    {
      assert Precedes(chain[i], chain[j]);
    }
  }

  lemma AscendingGrows(chain: Chain, n: nat, snaps: Snapshots)
    requires Ascending(chain) && AllGoForward(snaps) && n < |chain|
    requires Proven(snaps, chain[n]).Some? && Proven(snaps, chain[n]).value.next.Some?
    ensures Ascending(chain[..n + 1] + [Proven(snaps, chain[n]).value.next])
  {
    var next := Proven(snaps, chain[n]).value.next;
    assert GoesForward(chain[n], snaps[chain[n]]);
    forall i | 0 <= i <= n
      ensures Precedes(chain[i], next)
    {
      if i < n { assert Precedes(chain[i], chain[n]); }
    }
  }

  lemma {:induction false} RepairAscends(chain: Chain, snaps: Snapshots, depth: nat, i: nat)
    requires Ascending(chain) && AllGoForward(snaps)
    ensures Ascending(Repair(chain, snaps, depth, i))
    decreases |chain| - i
  {
    hide Proven, AllGoForward;
    if i < |chain| && Proven(snaps, chain[i]).Some? {
      var next := Proven(snaps, chain[i]).value.next;
      if next.Some? {
        AscendingGrows(chain, i, snaps);
        if i + 1 == |chain| { assert chain[..i + 1] == chain; }
        if i + 1 < |chain| && chain[i + 1] == next { RepairAscends(chain, snaps, depth, i + 1); }
      }
    }
  }

  // ------------------------------------------------------------------ the object

  /** What a new page source shows when subscribing it is refused on the spot. */
  predicate FailsAtOnce(s: Snapshot) {
    s.Rejected? || (s.Unavailable? && s.retained.None?)
  }

  function Showing(snaps: Snapshots, cursor: Cursor, s: Option<Snapshot>): Snapshots {
    if s.Some? then snaps[cursor := s.value] else snaps
  }

  /** One consumer's window. */
  class PaginatedQueryEntry {
    var pages: Chain
    var depth: nat
    var listeners: nat
    var started: bool
    var releaseScheduled: bool
    var state: Window
    /** Page sources this window listens to. */
    var held: set<Cursor>
    /** What the shared page sources show; they change on their own. */
    var snapshots: Snapshots

    /** While started there is a chain, which begins at the table's beginning and is no deeper than asked. */
    ghost predicate Valid()
      reads this
    {
      && |pages| <= depth
      && (pages != [] ==> pages[0] == None)
      && (started <==> pages != [])
      && (!started ==> listeners == 0)
      && (started && listeners == 0 ==> releaseScheduled)
    }

    /**
     * The sources listened to are exactly the chain, the chain is coherent, and the
     * window shown is the fold of it.
     */
    ghost predicate Exact()
      reads this
    {
      && held == Cursors(pages)
      && Coherent(pages, snapshots)
      && (started ==> state == Folded(pages, snapshots))
    }

    /** Every page shown goes forward, and so does the chain. */
    ghost predicate Keyset()
      reads this
    {
      AllGoForward(snapshots) && Ascending(pages)
    }

    constructor ()
      ensures Valid() && Exact() && Keyset() && !started && state == WindowPending && snapshots == map[]
    {
      pages, depth, listeners, started, releaseScheduled := [], 1, 0, false, false;
      state, held, snapshots := WindowPending, {}, map[];
    }

    method Fold() returns (w: Window)
      ensures w == Folded(pages, snapshots) && Reads(pages, snapshots, w)
    {
      hide Proven, Reads;
      FoldReads(pages, snapshots);
      var items: seq<Row> := [];
      var outage: Option<string> := None;
      var exhausted := false;
      var i := 0;
      ghost var n := Leading(pages, snapshots);
      while i < |pages|
        invariant i <= n
        invariant items == Rows(pages[..i], snapshots) && outage == FirstOutage(pages[..i], snapshots)
        invariant AllProper(pages[..i], snapshots)
        invariant exhausted == (0 < i == |pages| && PageAt(snapshots, pages[i - 1]).next.None?)
      {
        var s := SnapshotOf(snapshots, pages[i]);
        if s.Unavailable? && outage.None? { outage := Some(s.error); }
        if Shown(s).None? {
          assert i == n;
          return Cut(items, outage, i == 0, s);
        }
        assert i < n;
        assert pages[..n][i] == pages[i];
        if Shown(s).value.Improper? { return WindowRejected(MALFORMED_PAGE); }
        assert pages[..i + 1][..i] == pages[..i] && pages[..i + 1] == pages[..i] + [pages[i]];
        items := items + Shown(s).value.page.items;
        exhausted := i == |pages| - 1 && Shown(s).value.page.next.None?;
        i := i + 1;
      }
      return Settled(items, outage, exhausted);
    }

    /**
     * Put a page at the end of a coherent chain, then subscribe it. A subscription
     * may fail at once; the pass over the chain that this failure causes finds
     * nothing to repair, so it only folds.
     */
    method OpenPage(cursor: Cursor, failure: Option<Snapshot>)
      requires |pages| < depth && Coherent(pages + [cursor], snapshots)
      requires failure.Some? ==> FailsAtOnce(failure.value)
      modifies this`pages, this`held, this`snapshots, this`state
      ensures pages == old(pages) + [cursor] && held == old(held) + {cursor}
      ensures snapshots == Showing(old(snapshots), cursor, failure) && Coherent(pages, snapshots)
      ensures old(AllGoForward(snapshots)) ==> AllGoForward(snapshots)
      ensures failure.Some? ==> Repair(pages, snapshots, depth, 0) == pages
    {
      hide Repair, Proven, Folded;
      pages := pages + [cursor];
      held := held + {cursor};
      if failure.Some? {
        FailureIsCoherent(pages, snapshots, cursor, failure.value);
        snapshots := snapshots[cursor := failure.value];
        assert Proven(snapshots, cursor).None? by { NotProven(snapshots, cursor); }
        QuietPass(pages, snapshots, depth, 0);
        state := Fold();
      }
    }

    /** Let the pages from `from` on go; the subscription of the last may still be under way and cannot be stopped. */
    method Truncate(from: nat, underWay: bool)
      requires from <= |pages|
      modifies this`pages, this`held
      ensures pages == old(pages)[..from]
      ensures !underWay ==> held == old(held) - Cursors(old(pages)[from..])
      ensures from == |old(pages)| ==> held == old(held)
    {
      var dropped := pages[from..];
      pages := pages[..from];
      var i := 0;
      while i < |dropped|
        invariant i <= |dropped| && pages == old(pages)[..from]
        invariant !underWay ==> held == old(held) - Cursors(dropped[..i])
        invariant i == 0 ==> held == old(held)
      {
        assert dropped[..i + 1] == dropped[..i] + [dropped[i]];
        if !(underWay && i + 1 == |dropped|) { held := held - {dropped[i]}; }
        i := i + 1;
      }
      assert dropped[..i] == dropped;
    }

    /** Act where the pass stops: cut off what no longer follows, and open what does. */
    method RepairAt(i: nat, failure: Option<Snapshot>, underWay: bool)
      requires i < |pages| <= depth
      requires Proven(snapshots, pages[i]).Some?
      requires !ContinuesAt(pages, snapshots, i)
      requires Coherent(Repair(pages, snapshots, depth, i), snapshots)
      requires failure.Some? ==> FailsAtOnce(failure.value)
      modifies this`pages, this`held, this`snapshots, this`state
      ensures pages == Repair(old(pages), old(snapshots), depth, i)
      ensures !underWay ==> held == HeldAfter(old(held), old(pages), pages)
      ensures Coherent(pages, snapshots)
      ensures pages == old(pages) ==> held == old(held)
      ensures failure.None? || pages == old(pages) ==> snapshots == old(snapshots)
      ensures old(AllGoForward(snapshots)) ==> AllGoForward(snapshots)
    {
      hide Folded, Coherent, Proven, HeldAfter, Shared;
      var next := Proven(snapshots, pages[i]).value.next;
      ghost var r := Repair(pages, snapshots, depth, i);
      HeldAfterPass(held, pages, snapshots, depth, i);
      if next.None? {
        Truncate(i + 1, underWay);
      } else if i + 1 < |pages| {
        Truncate(i + 1, underWay);
        OpenPage(next, failure);
      } else if i + 1 < depth {
        OpenPage(next, failure);
      }
    }

    /** Rebuild the chain from the boundaries that are currently proven. */
    method Reconcile(failure: Option<Snapshot>, underWay: bool)
      requires |pages| <= depth && (pages != [] ==> pages[0] == None)
      requires failure.Some? ==> FailsAtOnce(failure.value)
      modifies this`pages, this`held, this`snapshots, this`state
      ensures pages == Repair(old(pages), old(snapshots), depth, 0)
      ensures |pages| <= depth && (pages == [] <==> old(pages) == []) && (pages != [] ==> pages[0] == None)
      ensures Coherent(pages, snapshots) && state == Folded(pages, snapshots)
      ensures if pages == old(pages) then held == old(held)
              else !underWay ==> held == HeldAfter(old(held), old(pages), pages)
      ensures old(AllGoForward(snapshots)) ==> AllGoForward(snapshots)
      ensures failure.None? || pages == old(pages) ==> snapshots == old(snapshots)
    {
      hide Folded, Coherent, Proven, HeldAfter;
      RepairIsCoherent(pages, snapshots, depth, 0);
      var i := 0;
      while i < |pages| && ContinuesAt(pages, snapshots, i)
        invariant i <= |pages|
        invariant Repair(pages, snapshots, depth, 0) == Repair(pages, snapshots, depth, i)
      {
        i := i + 1;
      }
      if i < |pages| && Proven(snapshots, pages[i]).Some? {
        RepairAt(i, failure, underWay);
      }
      if pages != [] { Begins(pages, snapshots); }
      state := Fold();
    }

    /**
     * Ask for one more page; without a delivered last page there is nothing to
     * extend from. A subscription that fails at once causes a pass over the chain,
     * which may open a page that fails at once in turn.
     */
    method LoadMore(failure: Option<Snapshot>, second: Option<Snapshot>)
      requires Valid()
      requires failure.Some? ==> FailsAtOnce(failure.value)
      requires second.Some? ==> FailsAtOnce(second.value)
      modifies this
      ensures Valid() && started == old(started) && listeners == old(listeners)
      ensures if CanGrow(old(pages), old(snapshots), old(started) && old(listeners) > 0) then
                var longer := old(pages) + [Proven(old(snapshots), old(pages)[|old(pages)| - 1]).value.next];
                var shown := Showing(old(snapshots), longer[|old(pages)|], failure);
                && depth == |longer|
                && pages == (if failure.Some? then Repair(longer, shown, depth, 0) else longer)
                && (failure.None? || second.None? ==> snapshots == shown)
                && state == Folded(pages, snapshots)
                && (old(Exact()) ==> pages == longer && snapshots == shown)
              else
                pages == old(pages) && depth == old(depth) && state == old(state) && held == old(held) &&
                snapshots == old(snapshots)
      ensures depth >= old(depth) <==>
                || !CanGrow(old(pages), old(snapshots), old(started) && old(listeners) > 0)
                || |old(pages)| + 1 >= old(depth)
      ensures old(Exact()) ==> Exact()
      ensures old(Exact()) && old(Keyset()) ==> Keyset()
    {
      hide Folded, Coherent, Repair, Ascending, AllGoForward, Exact;
      if !started || listeners == 0 || pages == [] { return; }
      var page := Proven(snapshots, pages[|pages| - 1]);
      if page.None? || page.value.next.None? { return; }
      Extend(page.value.next, failure, second);
    }

    /** Open the page after the last one. */
    method Extend(next: Cursor, failure: Option<Snapshot>, second: Option<Snapshot>)
      requires Valid() && pages != [] && Proven(snapshots, pages[|pages| - 1]).Some?
      requires next.Some? && Proven(snapshots, pages[|pages| - 1]).value.next == next
      requires failure.Some? ==> FailsAtOnce(failure.value)
      requires second.Some? ==> FailsAtOnce(second.value)
      modifies this`pages, this`depth, this`held, this`snapshots, this`state
      ensures |pages| <= depth == |old(pages)| + 1 && pages != [] && pages[0] == None
      ensures var longer := old(pages) + [next];
              var shown := Showing(old(snapshots), next, failure);
              && pages == (if failure.Some? then Repair(longer, shown, depth, 0) else longer)
              && (failure.None? || second.None? ==> snapshots == shown)
              && (old(Exact()) ==> pages == longer && snapshots == shown)
      ensures state == Folded(pages, snapshots)
      ensures old(Exact()) ==> Exact()
      ensures old(Exact()) && old(Keyset()) ==> Keyset()
    {
      hide Folded, Coherent, Repair, Proven, Ascending, AllGoForward;
      ghost var before, was := pages, snapshots;
      ExtendedChain(pages, snapshots, next, failure);
      depth := |pages| + 1;
      pages := pages + [next];
      held := held + {next};
      if failure.Some? {
        snapshots := snapshots[next := failure.value];
        Reconcile(second, true);
      }
      state := Fold();
    }

    method StartObservation(failure: Option<Snapshot>)
      requires pages == []
      requires failure.Some? ==> FailsAtOnce(failure.value)
      modifies this`pages, this`held, this`snapshots, this`state, this`depth
      ensures pages == [None] && depth == 1 && held == old(held) + {None}
      ensures snapshots == Showing(old(snapshots), None, failure)
      ensures Coherent(pages, snapshots) && state == Folded(pages, snapshots)
      ensures old(AllGoForward(snapshots)) ==> AllGoForward(snapshots)
    {
      hide Folded;
      pages, depth := [], 1;
      OpenPage(None, failure);
      state := Fold();
    }

    method Listen(failure: Option<Snapshot>)
      requires Valid()
      requires failure.Some? ==> FailsAtOnce(failure.value)
      modifies this
      ensures Valid() && started && listeners == old(listeners) + 1
      ensures if old(started) then pages == old(pages) && depth == old(depth) && snapshots == old(snapshots)
              else pages == [None] && depth == 1 && snapshots == Showing(old(snapshots), None, failure)
      ensures old(Exact()) ==> Exact()
      ensures old(Keyset()) ==> Keyset()
    {
      hide Folded, Coherent, AllGoForward;
      if !started {
        StartObservation(failure);
        started := true;
      }
      listeners := listeners + 1;
    }

    method Leave()
      requires Valid() && listeners > 0
      modifies this`listeners, this`releaseScheduled
      ensures Valid() && listeners == old(listeners) - 1
      ensures old(Exact()) ==> Exact()
    {
      hide Folded, Coherent;
      listeners := listeners - 1;
      if listeners == 0 { releaseScheduled := true; }
    }

    /** The release put off by one microtask: demand that came back keeps every page. */
    method Release()
      requires Valid() && releaseScheduled
      modifies this
      ensures Valid() && snapshots == old(snapshots)
      ensures if old(listeners) > 0 || !old(started)
              then pages == old(pages) && started == old(started) && held == old(held)
              else pages == [] && !started && held == old(held) - Cursors(old(pages))
      ensures old(Exact()) ==> Exact()
      ensures old(Keyset()) ==> Keyset()
    {
      hide Folded, AllGoForward;
      releaseScheduled := false;
      if listeners > 0 || !started { return; }
      started := false;
      Truncate(0, false);
    }

    /** A shared page source shows something else; the window hears of it if it listens to that source. */
    method PageEvent(cursor: Cursor, s: Snapshot, failure: Option<Snapshot>)
      requires Valid()
      requires failure.Some? ==> FailsAtOnce(failure.value)
      modifies this
      ensures Valid() && depth == old(depth) && started == old(started) && listeners == old(listeners)
      ensures failure.None? ==> snapshots == old(snapshots)[cursor := s]
      ensures cursor in old(held) ==>
                && pages == Repair(old(pages), old(snapshots)[cursor := s], depth, 0)
                && held == (if pages == old(pages) then old(held) else HeldAfter(old(held), old(pages), pages))
                && Coherent(pages, snapshots) && state == Folded(pages, snapshots)
      ensures cursor !in old(held) ==> pages == old(pages) && held == old(held) && state == old(state)
      ensures old(Exact()) ==> (Exact() <==> held == Cursors(pages))
      ensures old(Exact()) && Distinct(old(pages)) ==> Exact()
      ensures old(Exact()) && old(Keyset()) && GoesForward(cursor, s) ==> Exact() && Keyset()
    {
      hide Folded, Coherent, Repair, Ascending, Distinct, HeldAfter;
      ghost var before := pages;
      if Distinct(pages) { DistinctIsHeld(pages, snapshots[cursor := s], depth); }
      if Ascending(pages) { AscendingIsDistinct(pages); }
      if cursor in held {
        if Ascending(pages) && AllGoForward(snapshots[cursor := s]) {
          RepairAscends(pages, snapshots[cursor := s], depth, 0);
        }
        snapshots := snapshots[cursor := s];
        Reconcile(failure, false);
      } else {
        if cursor !in pages {
          FoldIsLocal(pages, snapshots, cursor, s);
          if Coherent(pages, snapshots) { CoherenceIsLocal(pages, snapshots, cursor, s); }
        }
        snapshots := snapshots[cursor := s];
      }
    }
  }

  /** The sources held after a pass that stops at page `i`. */
  lemma HeldAfterPass(held: set<Cursor>, chain: Chain, snaps: Snapshots, depth: nat, i: nat)
    requires i < |chain| && Proven(snaps, chain[i]).Some? && !ContinuesAt(chain, snaps, i)
    ensures var next := Proven(snaps, chain[i]).value.next;
            HeldAfter(held, chain, Repair(chain, snaps, depth, i)) ==
              if next.None? then held - Cursors(chain[i + 1..])
              else if i + 1 < |chain| then held - Cursors(chain[i + 1..]) + {next}
              else if i + 1 < depth then held + {next} else held
  {
    hide Proven, Shared;
    var r := Repair(chain, snaps, depth, i);
    SharedIs(chain, r, i + 1);
    assert r[i + 1..] == if |r| == i + 1 then [] else [Proven(snaps, chain[i]).value.next];
  }

  lemma DistinctIsHeld(chain: Chain, snaps: Snapshots, depth: nat)
    requires Distinct(chain)
    ensures var r := Repair(chain, snaps, depth, 0); HeldAfter(Cursors(chain), chain, r) == Cursors(r)
  {
    hide Repair, Distinct, HeldAfter;
    DistinctStaysHeld(chain, Repair(chain, snaps, depth, 0));
  }

  /** What the last page names extends a coherent chain to a coherent one that a failing page does not upset. */
  lemma ExtendedChain(chain: Chain, snaps: Snapshots, next: Cursor, failure: Option<Snapshot>)
    requires chain != [] && next.Some? && Proven(snaps, chain[|chain| - 1]).Some?
    requires Proven(snaps, chain[|chain| - 1]).value.next == next
    requires failure.Some? ==> FailsAtOnce(failure.value)
    ensures var shown := Showing(snaps, next, failure);
            && (Coherent(chain, snaps) ==>
                  && Coherent(chain + [next], shown)
                  && (failure.Some? ==> Repair(chain + [next], shown, |chain| + 1, 0) == chain + [next]))
            && (AllGoForward(snaps) ==> AllGoForward(shown))
            && (AllGoForward(snaps) && Ascending(chain) ==> Ascending(chain + [next]))
  {
    hide Repair, Proven, Coherent, Ascending;
    if AllGoForward(snaps) && Ascending(chain) {
      AscendingGrows(chain, |chain| - 1, snaps);
      assert chain[..|chain|] == chain;
    }
    if Coherent(chain, snaps) {
      GrowthIsCoherent(chain, snaps);
      if failure.Some? {
        var shown := snaps[next := failure.value];
        FailureIsCoherent(chain + [next], snaps, next, failure.value);
        NotProven(shown, next);
        Begins(chain + [next], shown);
        QuietPass(chain + [next], shown, |chain| + 1, 0);
      }
    }
  }

  const ENDS: Snapshot := Success(Proper(Page([], None)))

  function Naming(key: int): Snapshot {
    Success(Proper(Page([], Some(key))))
  }

  lemma CutAtTheEnd(snaps: Snapshots)
    requires SnapshotOf(snaps, None) == Naming(1) && SnapshotOf(snaps, Some(1)) == ENDS
    ensures var chain: Chain := [None, Some(1), Some(1)];
            && Repair(chain, snaps, 3, 0) == [None, Some(1)]
            && HeldAfter({None, Some(1)}, chain, [None, Some(1)]) == {None}
  {
    hide Shared;
    var chain: Chain := [None, Some(1), Some(1)];
    assert chain[..2] == [None, Some(1)] && chain[2..] == [Some(1)];
    assert Repair(chain, snaps, 3, 1) == chain[..2];
    SharedIs(chain, [None, Some(1)], 2);
  }

  lemma FullPass(chain: Chain, snaps: Snapshots)
    requires chain == [None] || (chain == [None, Some(1)] && SnapshotOf(snaps, Some(1)).Success?)
    requires SnapshotOf(snaps, None) == Naming(1)
    requires |chain| == 2 ==> Proven(snaps, Some(1)).Some? && Proven(snaps, Some(1)).value.next.Some?
    ensures Repair(chain, snaps, |chain|, 0) == chain
  {
    assert Repair(chain, snaps, |chain|, |chain| - 1) == chain;
  }

  /** A window asked for three pages: the first names page 1 and that one names page `key`. */
  method ThreePages(key: int) returns (w: PaginatedQueryEntry)
    ensures fresh(w) && w.Valid() && w.Exact() && w.listeners == 1
    ensures w.pages == [None, Some(1), Some(key)] && w.depth == 3
    ensures w.snapshots == map[None := Naming(1), Some(1) := Naming(key)]
  {
    hide Folded, Coherent, Repair, HeldAfter, AllGoForward, Ascending;
    w := new PaginatedQueryEntry();
    w.Listen(None);
    FullPass(w.pages, w.snapshots[None := Naming(1)]);
    w.PageEvent(None, Naming(1), None);
    w.LoadMore(None, None);
    assert w.pages == [None, Some(1)];
    FullPass(w.pages, w.snapshots[Some(1) := Naming(key)]);
    w.PageEvent(Some(1), Naming(key), None);
    w.LoadMore(None, None);
  }

  /**
   * A cursor that repeats. The first page names a second that names itself, and the
   * consumer asks for three pages; when the second page turns out to be the last,
   * the third is let go and with it the only listener on both: the second page
   * stays in the window, but nothing it shows later is heard.
   */
  method RepeatedCursorIsLost() returns (w: PaginatedQueryEntry)
    ensures fresh(w) && w.Valid() && w.listeners == 1
    ensures w.pages == [None, Some(1)] && w.held == {None}
  {
    hide Folded, Coherent, Repair, HeldAfter, AllGoForward, Ascending;
    w := ThreePages(1);
    assert w.held == {None, Some(1)};
    CutAtTheEnd(w.snapshots[Some(1) := ENDS]);
    w.PageEvent(Some(1), ENDS, None);
  }

  /**
   * A boundary that stays broken. The first of three pages is lost; the second then
   * names another page than the third, which stays in the window.
   */
  method BehindAnUnprovenPage() returns (w: PaginatedQueryEntry)
    ensures fresh(w) && w.Valid() && w.Exact() && w.listeners == 1
    ensures w.pages == [None, Some(1), Some(2)] && !Linked(w.pages, w.snapshots)
  {
    hide Folded, Coherent, Repair, HeldAfter, AllGoForward, Ascending;
    w := ThreePages(2);
    var lost := Unavailable(Some(Proper(Page([], Some(1)))), "lost");
    StoppedPass(w.pages, w.snapshots[None := lost]);
    w.PageEvent(None, lost, None);
    StoppedPass(w.pages, w.snapshots[Some(1) := Naming(9)]);
    w.PageEvent(Some(1), Naming(9), None);
    assert BrokenAt(w.pages, w.snapshots, 1);
  }

  lemma StoppedPass(chain: Chain, snaps: Snapshots)
    requires chain != [] && Proven(snaps, chain[0]).None?
    ensures Repair(chain, snaps, |chain|, 0) == chain
  {
  }

  predicate CanGrow(chain: Chain, snaps: Snapshots, demand: bool) {
    && demand && chain != []
    && Proven(snaps, chain[|chain| - 1]).Some? && Proven(snaps, chain[|chain| - 1]).value.next.Some?
  }

  lemma Begins(chain: Chain, snaps: Snapshots)
    requires Coherent(chain, snaps) && chain != []
    ensures chain[0] == None
  {
  }

  lemma FoldIsLocal(chain: Chain, snaps: Snapshots, cursor: Cursor, s: Snapshot)
    requires cursor !in chain
    ensures Folded(chain, snaps[cursor := s]) == Folded(chain, snaps)
  {
    var after := snaps[cursor := s];
    LeadingIsLocal(chain, snaps, cursor, s);
    var n := Leading(chain, snaps);
    RowsAreLocal(chain[..n], snaps, cursor, s);
  }

  lemma {:induction false} LeadingIsLocal(chain: Chain, snaps: Snapshots, cursor: Cursor, s: Snapshot)
    requires cursor !in chain
    ensures Leading(chain, snaps[cursor := s]) == Leading(chain, snaps)
  {
    if chain != [] { LeadingIsLocal(chain[1..], snaps, cursor, s); }
  }

  lemma {:induction false} RowsAreLocal(chain: Chain, snaps: Snapshots, cursor: Cursor, s: Snapshot)
    requires cursor !in chain
    ensures Rows(chain, snaps[cursor := s]) == Rows(chain, snaps)
    ensures FirstOutage(chain, snaps[cursor := s]) == FirstOutage(chain, snaps)
    ensures AllProper(chain, snaps[cursor := s]) == AllProper(chain, snaps)
  {
    if chain != [] { RowsAreLocal(chain[..|chain| - 1], snaps, cursor, s); }
  }

  lemma NotProven(snaps: Snapshots, cursor: Cursor)
    requires !SnapshotOf(snaps, cursor).Success?
    ensures Proven(snaps, cursor).None?
  {
  }

  /**
   * The depth asked for can be lost. The first boundary of a window of four pages
   * moves, and the repaired chain continues on a page that another window already
   * holds; asking for one more page now counts from two pages, not from four.
   */
  method AskingForMoreCanShrinkTheDepth() returns (w: PaginatedQueryEntry, asked: nat)
    ensures fresh(w) && w.Valid() && w.Exact() && w.listeners == 1
    ensures w.pages == [None, Some(5), Some(6)] && w.depth < asked
  {
    hide Folded, Coherent, Repair, HeldAfter, AllGoForward, Ascending;
    w := FourPages();
    asked := w.depth;
    w.PageEvent(Some(5), Naming(6), None);
    var moved := w.snapshots[None := Naming(5)];
    assert w.pages == [None] + [Some(1), Some(2), Some(3)];
    MovedBoundary(moved, [Some(1), Some(2), Some(3)], Some(5));
    w.PageEvent(None, Naming(5), None);
    assert w.pages == [None, Some(5)];
    w.LoadMore(None, None);
  }

  /** A window asked for four pages, each but the last naming the next. */
  method FourPages() returns (w: PaginatedQueryEntry)
    ensures fresh(w) && w.Valid() && w.Exact() && w.listeners == 1
    ensures w.pages == [None, Some(1), Some(2), Some(3)] && w.depth == 4
    ensures w.snapshots == map[None := Naming(1), Some(1) := Naming(2), Some(2) := Naming(3)]
  {
    hide Folded, Coherent, Repair, HeldAfter, AllGoForward, Ascending;
    w := ThreePages(2);
    ThirdPass(w.snapshots[Some(2) := Naming(3)]);
    w.PageEvent(Some(2), Naming(3), None);
    w.LoadMore(None, None);
  }

  lemma ThirdPass(snaps: Snapshots)
    requires SnapshotOf(snaps, None) == Naming(1) && SnapshotOf(snaps, Some(1)) == Naming(2)
    requires SnapshotOf(snaps, Some(2)) == Naming(3)
    ensures Repair([None, Some(1), Some(2)], snaps, 3, 0) == [None, Some(1), Some(2)]
  {
    var chain: Chain := [None, Some(1), Some(2)];
    assert Repair(chain, snaps, 3, 2) == chain;
    assert Repair(chain, snaps, 3, 1) == chain;
  }

  lemma MovedBoundary(snaps: Snapshots, rest: Chain, next: Cursor)
    requires next.Some? && rest != [] && rest[0] != next
    requires Proven(snaps, None).Some? && Proven(snaps, None).value.next == next
    ensures Repair([None] + rest, snaps, 1 + |rest|, 0) == [None, next]
  {
  }
}
