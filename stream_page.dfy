/** The global validation stream (`src/pages/StreamPage.tsx`): fetched validations sorted newest
    first, shown ten to a page with Previous and Next controls. */
module StreamPage {
  import opened Wrappers
  import Sorting

  /** A validation as the stream shows it; `time` is `new Date(timestamp).getTime()`. */
  datatype Validation = Validation(id: string, time: int, username: string, deviceId: string,
                                   location: Option<(real, real)>, success: bool, errorMessage: Option<string>)

  function TimeOf(v: Validation): int { v.time }

  const ItemsPerPage := 10

  /** `Math.ceil(n / itemsPerPage)`. */
  function TotalPages(n: nat): (t: nat)
    ensures (t - 1) * ItemsPerPage < n <= t * ItemsPerPage || (n == 0 && t == 0)
  {
    (n + ItemsPerPage - 1) / ItemsPerPage
  }

  /** `validations.slice((page - 1) * itemsPerPage, page * itemsPerPage)`, with the clamping of
      `slice` at the end of the list. */
  function PageSlice<T>(s: seq<T>, page: nat): (r: seq<T>)
    requires page >= 1
    ensures |r| <= ItemsPerPage
    ensures (page - 1) * ItemsPerPage < |s| ==> |r| > 0
    ensures |r| > 0 ==> (page - 1) * ItemsPerPage + |r| <= |s|
    ensures forall k :: 0 <= k < |r| ==> r[k] == s[(page - 1) * ItemsPerPage + k]
  {
    var lo := (page - 1) * ItemsPerPage;
    var hi := page * ItemsPerPage;
    if lo >= |s| then [] else s[lo..if hi < |s| then hi else |s|]
  }

  /** Pages `1..k` one after another. */
  function Pages<T>(s: seq<T>, k: nat): seq<T>
  {
    if k == 0 then [] else Pages(s, k - 1) + PageSlice(s, k)
  }

  /** The first `k` pages are the list's first `10·k` items, in order. */
  lemma {:induction false} PagesPrefix<T>(s: seq<T>, k: nat)
    ensures Pages(s, k) == s[..if k * ItemsPerPage < |s| then k * ItemsPerPage else |s|]
  {
    if k > 0 {
      PagesPrefix(s, k - 1);
      var lo := (k - 1) * ItemsPerPage;
      var hi := k * ItemsPerPage;
      var a := if lo < |s| then lo else |s|;
      var b := if hi < |s| then hi else |s|;
      assert PageSlice(s, k) == s[a..b];
      assert s[..a] + s[a..b] == s[..b];
    }
  }

  /** Reading every page in turn gives the whole list, each item once and in order. */
  lemma AllPages<T>(s: seq<T>)
    ensures Pages(s, TotalPages(|s|)) == s
  {
    PagesPrefix(s, TotalPages(|s|));
  }

  /** What the page renders. */
  datatype View = Loading | Failed(message: string) | List(items: seq<Validation>, pagination: bool)

  /** Result of the fetch: the decoded list, a non-ok response with its status text, or a
      rejected request with its message. */
  datatype FetchOutcome = Fetched(data: seq<Validation>) | NotOk(statusText: string) | Rejected(message: string)

  class StreamPage {
    var validations: seq<Validation>
    var loading: bool
    var error: Option<string>
    var currentPage: int

    ghost predicate Valid()
      reads this
    {
      1 <= currentPage && (|validations| > ItemsPerPage ==> currentPage <= TotalPages(|validations|))
    }

    constructor()
      ensures validations == [] && loading && error.None? && currentPage == 1
      ensures Valid()
    {
      validations := [];
      loading := true;
      error := None;
      currentPage := 1;
    }

    /** The mount effect: a fetched list is sorted newest first and stored; a failure stores
        its message; loading ends either way. */
    method FetchValidations(outcome: FetchOutcome)
      requires Valid() && currentPage == 1
      modifies this
      ensures Valid() && !loading && currentPage == 1
      ensures outcome.Fetched? ==> (error == old(error)
        && Sorting.NewestFirst(validations, TimeOf)
        && multiset(validations) == multiset(outcome.data))
      ensures outcome.NotOk? ==> (validations == old(validations)
        && error == Some("Error fetching validations: " + outcome.statusText))
      ensures outcome.Rejected? ==> validations == old(validations) && error == Some(outcome.message)
    {
      match outcome {
        case Fetched(data) =>
          var a := new Validation[|data|](i requires 0 <= i < |data| => data[i]);
          assert a[..] == data;
          Sorting.SortNewestFirst(a, TimeOf);
          validations := a[..];
        case NotOk(statusText) =>
          error := Some("Error fetching validations: " + statusText);
        case Rejected(message) =>
          error := Some(message);
      }
      loading := false;
    }

    /** The rendered page: the loading and error screens come first; the list shows the current
        page, with pagination only when there are more than ten validations. */
    function Render(): (v: View)
      reads this
      requires Valid()
      ensures v.Loading? <==> loading
      ensures !loading && error.Some? && error.value != "" ==> v == Failed(error.value)
      ensures !loading && !(error.Some? && error.value != "") ==>
        v.List? && v.items == PageSlice(validations, currentPage) && (v.pagination <==> |validations| > ItemsPerPage)
      ensures v.List? ==> |v.items| <= ItemsPerPage
    {
      if loading then Loading
      else if error.Some? && error.value != "" then Failed(error.value)
      else List(PageSlice(validations, currentPage), |validations| > ItemsPerPage)
    }

    /** The Previous control: one page back, never below the first. */
    method Previous()
      requires Valid()
      modifies this
      ensures Valid()
      ensures currentPage == if old(currentPage) > 1 then old(currentPage) - 1 else 1
      ensures validations == old(validations) && loading == old(loading) && error == old(error)
    {
      currentPage := if currentPage - 1 > 1 then currentPage - 1 else 1;
    }

    /** The Next control, shown only with more than ten validations: one page on, never past
        the last. */
    method Next()
      requires Valid() && |validations| > ItemsPerPage
      modifies this
      ensures Valid()
      ensures var t := TotalPages(|validations|);
              currentPage == if old(currentPage) + 1 < t then old(currentPage) + 1 else t
      ensures validations == old(validations) && loading == old(loading) && error == old(error)
    {
      var totalPages := TotalPages(|validations|);
      currentPage := if totalPages < currentPage + 1 then totalPages else currentPage + 1;
    }
  }
}
