/**
 * The site-wide catalog store (src/contexts/SiteContext.tsx): products, categories, sliders and
 * settings fetched together, with loading and error state.
 */
module SiteContext {
  import opened Wrappers
  import opened Database

  const NotConfiguredMessage: string := "Supabase not configured"
  const FailedMessage: string := "Failed to load data"

  /** `defaultSettings`, without its timestamps. */
  const DefaultSettings: SiteSettings := SiteSettings(
    "default", "", "", None, None, [], None, "", None, None, None, None, None, None, None, None,
    None, None, None, false, None, None, None)

  /** A thrown value: an `Error` object with its message, or anything else. */
  datatype Thrown = ErrorObject(message: string) | OtherValue

  /** `err instanceof Error ? err.message : 'Failed to load data'` */
  function ErrorMessage(t: Thrown): string {
    match t
    case ErrorObject(m) => m
    case OtherValue => FailedMessage
  }

  /** One query's `{ data, error }`: `data` may be null. */
  datatype Response<T> = Response(data: Option<T>, error: Option<Thrown>)

  /** How the joined fetch of the four queries settles. */
  datatype Batch =
    | Joined(products: Response<seq<Product>>, categories: Response<seq<Category>>,
             sliders: Response<seq<Slider>>, settings: Response<SiteSettings>)
    | Rejected(reason: Thrown)

  /** The value first thrown inside the `try`: the rejection, else the first error field in query order. */
  function FirstError(b: Batch): Option<Thrown> {
    match b
    case Rejected(t) => Some(t)
    case Joined(p, c, s, st) =>
      if p.error.Some? then p.error
      else if c.error.Some? then c.error
      else if s.error.Some? then s.error
      else st.error
  }

  datatype Store = Store(
    products: seq<Product>,
    categories: seq<Category>,
    sliders: seq<Slider>,
    settings: Option<SiteSettings>,
    isLoading: bool,
    error: Option<string>)

  function InitialStore(): Store {
    Store([], [], [], Some(DefaultSettings), true, None)
  }

  /** No collection and not the settings differ. */
  predicate SameData(s: Store, t: Store) {
    s.products == t.products && s.categories == t.categories && s.sliders == t.sliders
    && s.settings == t.settings
  }

  /** The join rejected, or one of the four responses carries an error. */
  predicate Failed(b: Batch) {
    b.Rejected? || b.products.error.Some? || b.categories.error.Some? || b.sliders.error.Some?
    || b.settings.error.Some?
  }

  /**
   * The store once `fetchData` has settled, with `configured` = `isSupabaseConfigured()`. Loading
   * has always ended. Unconfigured, or when any query failed, it is all or nothing: every
   * collection and the settings keep their previous values and an error is recorded.
   */
  function AfterFetch(s: Store, configured: bool, b: Batch): (r: Store)
    ensures !r.isLoading
    ensures !configured ==> SameData(r, s) && r.error == Some(NotConfiguredMessage)
    ensures configured && Failed(b) ==> SameData(r, s) && r.error.Some?
    ensures configured && !Failed(b) ==> r.error.None?
  {
    if !configured then s.(isLoading := false, error := Some(NotConfiguredMessage))
    else
      match FirstError(b)
      case Some(t) => s.(isLoading := false, error := Some(ErrorMessage(t)))
      case None =>
        Store(b.products.data.GetOr([]), b.categories.data.GetOr([]), b.sliders.data.GetOr([]),
              Some(b.settings.data.GetOr(DefaultSettings)), false, None)
  }

  /** `settings?.purchase_enabled ?? false` */
  function PurchaseEnabled(settings: Option<SiteSettings>): bool {
    settings.Some? && settings.value.purchase_enabled
  }

  /**
   * A failed categories query discards the products that arrived in the same batch: the store
   * keeps the products it had before.
   */
  lemma PartialBatchDiscarded(s: Store, fetched: seq<Product>, e: Thrown, sl: Response<seq<Slider>>,
                              st: Response<SiteSettings>)
    ensures AfterFetch(s, true, Joined(Response(Some(fetched), None), Response(None, Some(e)), sl, st)).products
            == s.products
  {
  }

  /**
   * The recorded message is that of the first value thrown: the rejection of the join, else the
   * first failing query in the order products, categories, sliders, settings.
   */
  lemma FetchFailureMessage(s: Store, b: Batch)
    ensures b.Rejected? ==> AfterFetch(s, true, b).error == Some(ErrorMessage(b.reason))
    ensures b.Joined? && b.products.error.Some? ==>
      AfterFetch(s, true, b).error == Some(ErrorMessage(b.products.error.value))
    ensures b.Joined? && b.products.error.None? && b.categories.error.Some? ==>
      AfterFetch(s, true, b).error == Some(ErrorMessage(b.categories.error.value))
    ensures b.Joined? && b.products.error.None? && b.categories.error.None? && b.sliders.error.Some? ==>
      AfterFetch(s, true, b).error == Some(ErrorMessage(b.sliders.error.value))
    ensures b.Joined? && b.products.error.None? && b.categories.error.None? && b.sliders.error.None?
            && b.settings.error.Some? ==>
      AfterFetch(s, true, b).error == Some(ErrorMessage(b.settings.error.value))
  {
  }

  /** When all four succeed, each list is its data or [], the settings are their row or the defaults, and no error. */
  lemma FetchSuccessReplacesData(s: Store, p: Response<seq<Product>>, c: Response<seq<Category>>,
                                 sl: Response<seq<Slider>>, st: Response<SiteSettings>)
    requires p.error.None? && c.error.None? && sl.error.None? && st.error.None?
    ensures var r := AfterFetch(s, true, Joined(p, c, sl, st));
      && r.products == (if p.data.Some? then p.data.value else [])
      && r.categories == (if c.data.Some? then c.data.value else [])
      && r.sliders == (if sl.data.Some? then sl.data.value else [])
      && r.settings == Some(if st.data.Some? then st.data.value else DefaultSettings)
      && r.error.None?
  {
  }

  /** The store after a sequence of `fetchData` calls. */
  function Replay(s: Store, fetches: seq<(bool, Batch)>): Store
    decreases |fetches|
  {
    if fetches == [] then s
    else
      var last := fetches[|fetches| - 1];
      AfterFetch(Replay(s, fetches[..|fetches| - 1]), last.0, last.1)
  }

  /** The settings are never null: initially the defaults, and every fetch keeps or replaces them. */
  lemma {:induction false} SettingsNeverNull(fetches: seq<(bool, Batch)>)
    ensures Replay(InitialStore(), fetches).settings.Some?
    ensures PurchaseEnabled(Replay(InitialStore(), fetches).settings)
            == Replay(InitialStore(), fetches).settings.value.purchase_enabled
    decreases |fetches|
  {
    if fetches != [] {
      SettingsNeverNull(fetches[..|fetches| - 1]);
    }
  }

  /** Purchasing starts disabled, with the default settings, and is disabled without settings. */
  lemma PurchaseInitiallyDisabled()
    ensures !PurchaseEnabled(InitialStore().settings)
    ensures !PurchaseEnabled(None)
  {
  }

  /** The provider's state, updated in place by `fetchData`. */
  class Provider {
    var products: seq<Product>
    var categories: seq<Category>
    var sliders: seq<Slider>
    var settings: Option<SiteSettings>
    var isLoading: bool
    var error: Option<string>

    function State(): Store
      reads this
    {
      Store(products, categories, sliders, settings, isLoading, error)
    }

    constructor ()
      ensures State() == InitialStore()
    {
      products, categories, sliders := [], [], [];
      settings := Some(DefaultSettings);
      isLoading := true;
      error := None;
    }

    /** `fetchData`, from the check of the client through the `finally` block. */
    method FetchData(configured: bool, b: Batch)
      modifies this
      ensures State() == AfterFetch(old(State()), configured, b)
    {
      if !configured {
        isLoading := false;
        error := Some(NotConfiguredMessage);
        return;
      }
      isLoading := true;
      error := None;
      var thrown: Option<Thrown> := None;
      match b {
        case Rejected(t) =>
          thrown := Some(t);
        case Joined(p, c, s, st) =>
          if p.error.Some? {
            thrown := p.error;
          } else if c.error.Some? {
            thrown := c.error;
          } else if s.error.Some? {
            thrown := s.error;
          } else if st.error.Some? {
            thrown := st.error;
          } else {
            products := p.data.GetOr([]);
            categories := c.data.GetOr([]);
            sliders := s.data.GetOr([]);
            settings := Some(st.data.GetOr(DefaultSettings));
          }
      }
      if thrown.Some? {
        error := Some(ErrorMessage(thrown.value));
      }
      isLoading := false;
    }
  }
}
