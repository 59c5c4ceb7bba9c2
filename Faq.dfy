/** The questions page (src/pages/FAQ.tsx): its load effect and what it renders. */
module Faq {
  import opened Wrappers
  import opened Sequences
  import opened Strings
  import opened JsNumbers

  datatype FaqItem = FaqItem(id: string, question: string, answer: string, order_index: int,
                             is_active: bool)

  /** The query's `error` object: `code` may be missing or empty. */
  datatype DbError = DbError(message: string, code: Option<string>)

  /** A value thrown by the awaited query: its `message` property, and its `JSON.stringify` text. */
  datatype Thrown = Thrown(message: Option<string>, json: string)

  /** How the awaited query settles. */
  datatype Outcome =
    | Responded(data: Option<seq<FaqItem>>, error: Option<DbError>)
    | Threw(err: Thrown)

  datatype State = State(faqs: seq<FaqItem>, loading: bool, error: Option<string>, debugInfo: string)

  function InitialState(): State {
    State([], true, None, "")
  }

  predicate IsActive(f: FaqItem) {
    f.is_active
  }

  /** `faqs.filter(f => f.is_active)` */
  function ActiveFaqs(faqs: seq<FaqItem>): seq<FaqItem> {
    Filter(faqs, IsActive)
  }

  function ActiveCount(faqs: seq<FaqItem>): nat {
    |ActiveFaqs(faqs)|
  }

  /** `allFaqs.length - activeCount` */
  function InactiveCount(faqs: seq<FaqItem>): int {
    |faqs| - ActiveCount(faqs)
  }

  /** The active list is the active questions, in their order. */
  lemma ActiveFaqsSpec(faqs: seq<FaqItem>, f: FaqItem)
    ensures f in ActiveFaqs(faqs) <==> f in faqs && f.is_active
    ensures IsSubsequence(ActiveFaqs(faqs), faqs)
  {
    FilterMembership(faqs, IsActive, f);
    FilterIsSubsequence(faqs, IsActive);
  }

  /** The inactive count is never negative, is the number of inactive questions, and the two add up. */
  lemma CountsSpec(faqs: seq<FaqItem>)
    ensures 0 <= ActiveCount(faqs) && 0 <= InactiveCount(faqs)
    ensures ActiveCount(faqs) + InactiveCount(faqs) == |faqs|
    ensures InactiveCount(faqs) == |Filter(faqs, (f: FaqItem) => !f.is_active)|
  {
    FilterPartition(faqs, IsActive, (f: FaqItem) => !f.is_active);
  }

  /** `Total FAQs: n | Active: a | Inactive: i` */
  function Summary(faqs: seq<FaqItem>): string {
    "Total FAQs: " + NatToString(|faqs|) + " | Active: " + NatToString(ActiveCount(faqs))
    + " | Inactive: " + NatToString(|faqs| - ActiveCount(faqs))
  }

  /**
   * The state once the load effect has settled. Loading has always ended. A failed query or a
   * throw leaves the questions as they were and records a non-empty error; a successful query
   * replaces the questions by its rows, or none, and clears the error.
   */
  function AfterLoad(s: State, o: Outcome): (r: State)
    ensures !r.loading
    ensures (o.Threw? || o.error.Some?) ==> r.faqs == s.faqs && r.error.Some? && r.error.value != ""
    ensures o.Responded? && o.error.None? ==>
      r.faqs == (if o.data.Some? then o.data.value else []) && r.error.None?
  {
    match o
    case Threw(e) =>
      State(s.faqs, false, Some("Error: " + OrElse(e.message, "Unknown error occurred")), e.json)
    case Responded(data, Some(e)) =>
      State(s.faqs, false, Some("Database Error: " + e.message),
            "Error Code: " + OrElse(e.code, "unknown"))
    case Responded(data, None) =>
      var all := data.GetOr([]);
      State(all, false, None, Summary(all))
  }

  /** What the page shows below its banners. */
  datatype Body =
    | Spinner
    | NoneActive(emptyDatabase: bool, listed: seq<FaqItem>)
    | Accordion(items: seq<FaqItem>)

  /**
   * A spinner while loading; without active questions a message that tells an empty table from
   * one whose questions are all inactive (listing them); else the accordion of active questions.
   */
  function PageBody(s: State): (b: Body)
    ensures b.Spinner? <==> s.loading
    ensures b.NoneActive? <==> !s.loading && forall i :: 0 <= i < |s.faqs| ==> !s.faqs[i].is_active
    ensures b.NoneActive? ==> (b.emptyDatabase <==> s.faqs == []) && b.listed == s.faqs
    ensures b.Accordion? ==> b.items == ActiveFaqs(s.faqs) && b.items != []
  {
    if s.loading then Spinner
    else
      var active := ActiveFaqs(s.faqs);
      if |active| == 0 then
        assert forall i :: 0 <= i < |s.faqs| ==> !s.faqs[i].is_active by {
          forall i | 0 <= i < |s.faqs| ensures !s.faqs[i].is_active {
            FilterMembership(s.faqs, IsActive, s.faqs[i]);
          }
        }
        NoneActive(|s.faqs| == 0, s.faqs)
      else
        FilterMembership(s.faqs, IsActive, active[0]);
        Accordion(active)
  }

  /** The debug and error alerts are shown when their text is non-empty. */
  function ShowsError(s: State): bool {
    s.error.Some? && s.error.value != ""
  }

  /**
   * On the page's first load, a failed query shows the error alert above the "no questions in
   * the database" message: the two cases an empty list stands for are not told apart there.
   */
  lemma FailedFirstLoad(e: DbError, data: Option<seq<FaqItem>>)
    ensures var s := AfterLoad(InitialState(), Responded(data, Some(e)));
      ShowsError(s) && PageBody(s) == NoneActive(true, [])
  {
  }

  /** The page's state, set in place by the load effect. */
  class Page {
    var faqs: seq<FaqItem>
    var loading: bool
    var error: Option<string>
    var debugInfo: string

    function Current(): State
      reads this
    {
      State(faqs, loading, error, debugInfo)
    }

    constructor ()
      ensures Current() == InitialState()
    {
      faqs, loading, error, debugInfo := [], true, None, "";
    }

    /** The effect, from `setLoading(true)` through the `finally` block. */
    method LoadEffect(o: Outcome)
      modifies this
      ensures Current() == AfterLoad(old(Current()), o)
    {
      loading := true;
      error := None;
      match o {
        case Threw(e) =>
          error := Some("Error: " + OrElse(e.message, "Unknown error occurred"));
          debugInfo := e.json;
        case Responded(data, dbError) =>
          if dbError.Some? {
            error := Some("Database Error: " + dbError.value.message);
            debugInfo := "Error Code: " + OrElse(dbError.value.code, "unknown");
          } else {
            var all := data.GetOr([]);
            faqs := all;
            var activeCount := |ActiveFaqs(all)|;
            var inactiveCount := |all| - activeCount;
            debugInfo := "Total FAQs: " + NatToString(|all|) + " | Active: " + NatToString(activeCount)
              + " | Inactive: " + NatToString(inactiveCount);
          }
      }
      loading := false;
    }
  }
}
