/** Pages over a list that is already known in full. */
module Pagination {
  import opened Options

  datatype Reason = ResultCountLimit | ResultTransportBudget

  datatype Page<T> = Page(items: seq<T>, next: Option<nat>, omitted: nat, truncated: bool, reason: Option<Reason>)

  datatype Failure = InvalidArguments | InvalidPosition | TransportBudgetExceeded

  datatype Outcome<T> = Emitted(page: Page<T>) | Refused(failure: Failure)

  /** The bytes of the items from `start` up to `end`. */
  function Used<T>(items: seq<T>, size: T -> nat, start: nat, end: nat): nat
    requires start <= end <= |items|
  {
    if start == end then 0 else Used(items, size, start, end - 1) + size(items[end - 1])
  }

  /** A page from `start` may reach up to `end`: both limits hold for it. */
  ghost predicate Fits<T>(items: seq<T>, size: T -> nat, maxItems: int, budget: int, start: nat, end: nat)
    requires start <= end <= |items|
  {
    end - start <= maxItems && Used(items, size, start, end) <= budget
  }

  /** What the code promises of a page that starts at `start`: it is the stretch of the list up to the
      cursor, within both limits, and it stops only where the next item would break one of them or
      the byte budget is used up exactly. */
  ghost predicate IsPage<T>(items: seq<T>, size: T -> nat, maxItems: int, budget: int, start: nat, page: Page<T>)
    requires start <= |items|
  {
    var end := start + |page.items|;
    && end <= |items| && page.items == items[start..end] && Fits(items, size, maxItems, budget, start, end)
    && page.next == (if end < |items| then Some(end) else None)
    && page.omitted == |items| - end && page.truncated == page.next.Some?
    && (start < |items| ==> start < end)
    && (end < |items| ==> !Fits(items, size, maxItems, budget, start, end + 1) || Used(items, size, start, end) == budget)
    && page.reason ==
       (if page.next.None? || Used(items, size, start, end) == budget then None
        else if |page.items| == maxItems then Some(ResultCountLimit) else Some(ResultTransportBudget))
  }

  /** `paginate`. */
  method Paginate<T>(items: seq<T>, size: T -> nat, maxItems: int, budget: int, start: nat) returns (outcome: Outcome<T>)
    ensures !(1 <= maxItems <= 2000 && 1 <= budget <= 120_000) ==> outcome == Refused(InvalidArguments)
    ensures 1 <= maxItems <= 2000 && 1 <= budget <= 120_000 ==>
      && (start > |items| <==> outcome == Refused(InvalidPosition))
      && (start < |items| && size(items[start]) > budget <==> outcome == Refused(TransportBudgetExceeded))
      && (outcome.Refused? ==> outcome.failure != InvalidArguments)
      && (outcome.Emitted? ==> IsPage(items, size, maxItems, budget, start, outcome.page))
  {
    if !(1 <= maxItems <= 2000 && 1 <= budget <= 120_000) {
      return Refused(InvalidArguments);
    }
    if start > |items| {
      return Refused(InvalidPosition);
    }
    var selected: seq<T>, used: nat, index: nat := [], 0, start;
    var reason: Option<Reason> := None;
    while index < |items|
      invariant start <= index <= |items| && selected == items[start..index] && reason.None?
      invariant used == Used(items, size, start, index) && used <= budget && index - start <= maxItems
      invariant index > start ==> size(items[start]) <= budget
      invariant index > start ==> used < budget
    {
      if |selected| >= maxItems {
        reason := Some(ResultCountLimit);
        break;
      }
      var bytes := size(items[index]);
      if selected == [] && bytes > budget {
        return Refused(TransportBudgetExceeded);
      }
      if selected != [] && used + bytes > budget {
        reason := Some(ResultTransportBudget);
        break;
      }
      assert items[start..index + 1] == selected + [items[index]];
      selected, used, index := selected + [items[index]], used + bytes, index + 1;
      if used >= budget {
        break;
      }
    }
    var next := if index < |items| then Some(index) else None;
    outcome := Emitted(Page(selected, next, |items| - index, next.Some?, if next.Some? then reason else None));
  }

  // ----- following the cursors -----

  /** A run of pages from `start` to the end of the list, page `k` within the `k`-th limits. */
  ghost predicate IsChain<T>(items: seq<T>, size: T -> nat, limits: seq<(int, int)>, start: nat, pages: seq<Page<T>>)
    requires start <= |items|
    decreases |pages|
  {
    && 1 <= |pages| <= |limits|
    && IsPage(items, size, limits[0].0, limits[0].1, start, pages[0])
    && match pages[0].next
       case None => |pages| == 1
       case Some(next) => IsChain(items, size, limits[1..], next, pages[1..])
  }

  function Joined<T>(pages: seq<Page<T>>): seq<T> {
    if pages == [] then [] else pages[0].items + Joined(pages[1..])
  }

  /** Following the cursors gives the whole list, whatever the limits of the pages are, in no more
      pages than there are items. */
  lemma {:induction false} ChainIsList<T>(items: seq<T>, size: T -> nat, limits: seq<(int, int)>, start: nat, pages: seq<Page<T>>)
    requires start <= |items| && IsChain(items, size, limits, start, pages)
    ensures Joined(pages) == items[start..]
    ensures |pages| <= if start == |items| then 1 else |items| - start
    decreases |pages|
  {
    hide Fits, Used;
    var page := pages[0];
    if page.next.Some? {
      var next := page.next.value;
      ChainIsList(items, size, limits[1..], next, pages[1..]);
      assert items[start..] == items[start..next] + items[next..];
    } else {
      assert pages[1..] == [];
    }
  }

  /** A page that fills its byte budget exactly is truncated without a reason; every other truncated
      page names the limit that stopped it. */
  lemma ReasonMissingIff<T>(items: seq<T>, size: T -> nat, maxItems: int, budget: int, start: nat, page: Page<T>)
    requires start <= |items| && IsPage(items, size, maxItems, budget, start, page)
    ensures
      var end := start + |page.items|;
      && (page.truncated && page.reason.None? <==> end < |items| && Used(items, size, start, end) == budget)
      && (page.reason == Some(ResultCountLimit) ==> |page.items| == maxItems)
      && (page.reason == Some(ResultTransportBudget) ==> Used(items, size, start, end + 1) > budget)
  {
  }
}
