/**
 * `useMediaQuery` and the `MediaQuery` component.
 *
 * The hook keeps a cached `matches` flag and at most one live `change`
 * subscription, for the query its effect last ran with. The component
 * builds that query from its first prop through a fixed table of templates
 * and decides what to render from the flag.
 *
 * `window.matchMedia` is an oracle: the environment is either absent (no
 * `window`) or a function from query text to its current match. Query text
 * is never parsed or evaluated here.
 */
module MediaQuery {
  import opened Wrappers
  import Decimal

  // ---------------------------------------------------------------------
  // useMediaQuery
  // ---------------------------------------------------------------------

  /** The host: no `window` at all, or one whose `matchMedia(q).matches` is given. */
  datatype Env = NoWindow | Window(matchMedia: string -> bool)

  /** `!query`: undefined or the empty string. */
  predicate Blank(query: Option<string>) {
    query.None? || query.value == ""
  }

  /** The `useState` initialiser. */
  function InitialMatches(env: Env, query: Option<string>): (m: bool)
    ensures m <==> env.Window? && !Blank(query) && env.matchMedia(query.value)
  {
    if env.NoWindow? || Blank(query) then false else env.matchMedia(query.value)
  }

  /**
   * One `change` listener in the environment: the query its `MediaQueryList`
   * was made for, and which effect run created the handler closure.
   */
  datatype Subscription = Subscription(query: string, id: nat)

  class MediaMatchTracker {
    var matches: bool
    /** The `query` dependency of the last effect run; None before the first commit. */
    var effectQuery: Option<Option<string>>
    /** The subscription the pending effect cleanup removes, if the effect subscribed. */
    var cleanup: Option<Subscription>
    /** Subscriptions made so far, to tell apart the handler closures they create. */
    var nextId: nat
    /** This tracker's `change` listeners as the environment holds them. */
    ghost var listeners: multiset<Subscription>

    ghost predicate Valid()
      reads this
      ensures Valid() ==> |listeners| <= 1
    {
      && listeners == (if cleanup.Some? then multiset{cleanup.value} else multiset{})
      && (cleanup.Some? ==>
            && cleanup.value.id < nextId
            && cleanup.value.query != ""
            && effectQuery == Some(Some(cleanup.value.query)))
    }

    /** First render: `matches` from the initialiser; the effect has not run. */
    constructor (query: Option<string>, env: Env)
      ensures Valid()
      ensures matches == InitialMatches(env, query)
      ensures effectQuery == None && cleanup == None && listeners == multiset{}
    {
      matches := InitialMatches(env, query);
      effectQuery := None;
      cleanup := None;
      nextId := 0;
      listeners := multiset{};
    }

    /**
     * The commit after a render with `query`. When `query` differs from the
     * last effect's, the old cleanup runs and then the effect: with no window
     * or a blank query it returns early, leaving `matches` as it was;
     * otherwise it re-reads `matches` and subscribes a fresh handler.
     */
    method Commit(query: Option<string>, env: Env)
      requires Valid()
      modifies this
      ensures Valid() && effectQuery == Some(query)
      ensures old(effectQuery) == Some(query) ==>
        matches == old(matches) && cleanup == old(cleanup) && listeners == old(listeners) && nextId == old(nextId)
      ensures old(effectQuery) != Some(query) && old(cleanup).Some? ==> old(cleanup).value !in listeners
      ensures old(effectQuery) != Some(query) && (env.NoWindow? || Blank(query)) ==>
        matches == old(matches) && cleanup == None && listeners == multiset{}
      ensures old(effectQuery) != Some(query) && env.Window? && !Blank(query) ==>
        && matches == env.matchMedia(query.value)
        && cleanup == Some(Subscription(query.value, old(nextId)))
        && listeners == multiset{Subscription(query.value, old(nextId))}
    {
      if effectQuery != Some(query) {
        RunCleanup();
        RunEffect(query, env);
      }
    }

    /** Unmount: the pending cleanup removes the subscription its effect added. */
    method Unmount()
      requires Valid()
      modifies this`cleanup, this`listeners
      ensures Valid() && cleanup == None
      ensures listeners == old(listeners) - (if old(cleanup).Some? then multiset{old(cleanup).value} else multiset{})
      ensures listeners == multiset{}
    {
      RunCleanup();
    }

    /** The effect's cleanup closure: `removeEventListener` for exactly the handler it added. */
    method RunCleanup()
      requires Valid()
      modifies this`cleanup, this`listeners
      ensures Valid() && cleanup == None
      ensures listeners == old(listeners) - (if old(cleanup).Some? then multiset{old(cleanup).value} else multiset{})
      ensures listeners == multiset{}
    {
      if cleanup.Some? {
        listeners := listeners - multiset{cleanup.value};
        cleanup := None;
      }
    }

    /** The effect body, run after the previous cleanup. */
    method RunEffect(query: Option<string>, env: Env)
      requires Valid() && cleanup == None
      modifies this
      ensures Valid() && effectQuery == Some(query)
      ensures env.NoWindow? || Blank(query) ==>
        matches == old(matches) && cleanup == None && listeners == multiset{} && nextId == old(nextId)
      ensures env.Window? && !Blank(query) ==>
        && matches == env.matchMedia(query.value)
        && cleanup == Some(Subscription(query.value, old(nextId)))
        && listeners == multiset{Subscription(query.value, old(nextId))}
        && nextId == old(nextId) + 1
    {
      effectQuery := Some(query);
      if env.NoWindow? || Blank(query) {
        return;
      }
      matches := env.matchMedia(query.value);
      var subscription := Subscription(query.value, nextId);
      nextId := nextId + 1;
      listeners := listeners + multiset{subscription};
      cleanup := Some(subscription);
    }

    /** The `change` handler, run by the environment for a live subscription. */
    method OnChange(subscription: Subscription, eventMatches: bool)
      requires Valid() && subscription in listeners
      modifies this`matches
      ensures Valid() && matches == eventMatches
    {
      matches := eventMatches;
    }
  }

  // ---------------------------------------------------------------------
  // MediaQuery: the query built from the first prop
  // ---------------------------------------------------------------------

  /** A prop value; numbers are safe integers. */
  datatype Value = Num(n: Decimal.SafeInt) | Str(s: string) | Undefined | Null

  /** The keys of the template table. */
  datatype Feature = Orientation | MinResolution | MaxResolution | MinWidth | MaxWidth | MinHeight | MaxHeight

  /** The props in `Object.keys` order; a `children` entry, which the rest pattern takes out, is skipped. */
  type Props = seq<(string, Value)>

  function PropName(f: Feature): string {
    match f
    case Orientation => "orientation"
    case MinResolution => "minResolution"
    case MaxResolution => "maxResolution"
    case MinWidth => "minWidth"
    case MaxWidth => "maxWidth"
    case MinHeight => "minHeight"
    case MaxHeight => "maxHeight"
  }

  /** `queryMap[key]`: which template, if any, a key selects. */
  function FeatureOf(key: string): (f: Option<Feature>)
    ensures f.Some? ==> PropName(f.value) == key && key != ""
  {
    match key
    case "orientation" => Some(Orientation)
    case "minResolution" => Some(MinResolution)
    case "maxResolution" => Some(MaxResolution)
    case "minWidth" => Some(MinWidth)
    case "maxWidth" => Some(MaxWidth)
    case "minHeight" => Some(MinHeight)
    case "maxHeight" => Some(MaxHeight)
    case _ => None
  }

  /** Every prop name of the table selects its own template. */
  lemma FeatureOfPropName(f: Feature)
    ensures FeatureOf(PropName(f)) == Some(f)
  {
    match f
    case Orientation =>
    case MinResolution =>
    case MaxResolution =>
    case MinWidth =>
    case MaxWidth =>
    case MinHeight =>
    case MaxHeight =>
  }

  /** `${val}` in a template literal: a number's digits read back as the number, a string verbatim. */
  function Interpolate(v: Value): (s: string)
    ensures v.Num? ==> Decimal.ParseInt(s) == Some(v.n)
    ensures v.Str? ==> s == v.s
  {
    match v
    case Num(n) => Decimal.IntToStringRoundTrip(n); Decimal.IntToString(n)
    case Str(s) => s
    case Undefined => "undefined"
    case Null => "null"
  }

  /** The features whose value is a length in CSS pixels. */
  predicate IsLength(f: Feature) {
    f in {MinWidth, MaxWidth, MinHeight, MaxHeight}
  }

  /** The text of a template before the value: the Media Queries Level 4 feature it tests. */
  function Prefix(f: Feature): string {
    match f
    case Orientation => "(orientation: "
    case MinResolution => "(min-resolution: "
    case MaxResolution => "(max-resolution: "
    case MinWidth => "(min-width: "
    case MaxWidth => "(max-width: "
    case MinHeight => "(min-height: "
    case MaxHeight => "(max-height: "
  }

  /** The text of a template after the value. */
  function Suffix(f: Feature): string {
    if IsLength(f) then "px)" else ")"
  }

  /**
   * The seven entries of `queryMap`: the value goes between the feature's
   * prefix and a closing parenthesis, with a `px` unit for widths and
   * heights only.
   */
  function Template(f: Feature, v: Value): (q: string)
    ensures q == Prefix(f) + Interpolate(v) + Suffix(f)
    ensures IsLength(f) ==> q == Prefix(f) + Interpolate(v) + "px)"
    ensures !IsLength(f) ==> q == Prefix(f) + Interpolate(v) + ")"
  {
    var val := Interpolate(v);
    match f
    case Orientation => "(orientation: " + val + ")"
    case MinResolution => "(min-resolution: " + val + ")"
    case MaxResolution => "(max-resolution: " + val + ")"
    case MinWidth => "(min-width: " + val + "px)"
    case MaxWidth => "(max-width: " + val + "px)"
    case MinHeight => "(min-height: " + val + "px)"
    case MaxHeight => "(max-height: " + val + "px)"
  }

  /** Position of `Object.keys(props)[0]` once `children` is taken out; |props| when there is none. */
  function FirstKeyIndex(props: Props): (i: nat)
    ensures i <= |props|
    ensures i < |props| ==> props[i].0 != "children"
    ensures forall j :: 0 <= j < i ==> props[j].0 == "children"
  {
    if props == [] then 0
    else if props[0].0 == "children" then 1 + FirstKeyIndex(props[1..])
    else 0
  }

  /** The memoised query: undefined without a key, for an empty or unknown key, else the key's template. */
  function BuildQuery(props: Props): (r: Option<string>)
    ensures var i := FirstKeyIndex(props);
      r.Some? <==> i < |props| && FeatureOf(props[i].0).Some?
  {
    var i := FirstKeyIndex(props);
    if i == |props| || props[i].0 == "" then None
    else
      match FeatureOf(props[i].0)
      case None => None
      case Some(f) => Some(Template(f, props[i].1))
  }

  // ---------------------------------------------------------------------
  // Reading a built query back: the inverse of Template
  // ---------------------------------------------------------------------

  /** The six leading characters tell the seven templates apart. */
  function FeatureOfTag(tag: string): Option<Feature> {
    match tag
    case "(orien" => Some(Orientation)
    case "(min-r" => Some(MinResolution)
    case "(max-r" => Some(MaxResolution)
    case "(min-w" => Some(MinWidth)
    case "(max-w" => Some(MaxWidth)
    case "(min-h" => Some(MinHeight)
    case "(max-h" => Some(MaxHeight)
    case _ => None
  }

  /** The feature and the value text of a query in one of the seven template shapes. */
  function DecodeQuery(q: string): (r: Option<(Feature, string)>)
    ensures r.Some? ==> q == Prefix(r.value.0) + r.value.1 + Suffix(r.value.0)
  {
    if |q| < 6 then None
    else
      match FeatureOfTag(q[..6])
      case None => None
      case Some(f) =>
        var pre, suf := Prefix(f), Suffix(f);
        if |q| >= |pre| + |suf| && q[..|pre|] == pre && q[|q| - |suf|..] == suf
        then
          var text := q[|pre|..|q| - |suf|];
          assert q == q[..|pre|] + text + q[|q| - |suf|..];
          Some((f, text))
        else None
  }

  lemma TagOfPrefix(f: Feature)
    ensures |Prefix(f)| >= 6 && FeatureOfTag(Prefix(f)[..6]) == Some(f)
  {
    match f
    case Orientation => assert Prefix(f)[..6] == "(orien";
    case MinResolution => assert Prefix(f)[..6] == "(min-r";
    case MaxResolution => assert Prefix(f)[..6] == "(max-r";
    case MinWidth => assert Prefix(f)[..6] == "(min-w";
    case MaxWidth => assert Prefix(f)[..6] == "(max-w";
    case MinHeight => assert Prefix(f)[..6] == "(min-h";
    case MaxHeight => assert Prefix(f)[..6] == "(max-h";
  }

  /** Any value text placed in a template is read back with its feature. */
  lemma DecodeTemplateText(f: Feature, text: string)
    ensures DecodeQuery(Prefix(f) + text + Suffix(f)) == Some((f, text))
  {
    var pre, suf := Prefix(f), Suffix(f);
    var q := pre + text + suf;
    TagOfPrefix(f);
    assert q[..6] == pre[..6];
    assert q[..|pre|] == pre;
    assert q[|q| - |suf|..] == suf;
    assert q[|pre|..|q| - |suf|] == text;
  }

  /**
   * The built query carries exactly what was asked for: it reads back as the
   * first key's feature and the interpolated value; a numeric value is
   * recovered as the same number.
   */
  lemma BuildQueryDecodes(props: Props)
    ensures var i := FirstKeyIndex(props);
      BuildQuery(props).Some? ==>
        && DecodeQuery(BuildQuery(props).value) == Some((FeatureOf(props[i].0).value, Interpolate(props[i].1)))
        && (props[i].1.Num? ==> Decimal.ParseInt(DecodeQuery(BuildQuery(props).value).value.1) == Some(props[i].1.n))
  {
    var i := FirstKeyIndex(props);
    if i < |props| && FeatureOf(props[i].0).Some? {
      var f, v := FeatureOf(props[i].0).value, props[i].1;
      assert BuildQuery(props) == Some(Template(f, v));
      DecodeTemplateText(f, Interpolate(v));
    }
  }

  /** Different recognised first props never build the same query text. */
  lemma BuildQueryInjective(f: Feature, v: Value, g: Feature, w: Value)
    requires Template(f, v) == Template(g, w)
    ensures f == g && Interpolate(v) == Interpolate(w)
  {
    DecodeTemplateText(f, Interpolate(v));
    DecodeTemplateText(g, Interpolate(w));
  }

  // ---------------------------------------------------------------------
  // MediaQuery: the render decision
  // ---------------------------------------------------------------------

  /** A fixed child, or a function child called with the match result. */
  datatype Children<N> = Element(node: N) | RenderProp(render: bool -> Option<N>)

  /** What the component returns; None is `null`. */
  function Output<N>(children: Children<N>, matches: bool): (out: Option<N>)
    ensures children.Element? ==> (out.Some? <==> matches) && (out.Some? ==> out.value == children.node)
    ensures children.RenderProp? ==> out == children.render(matches)
  {
    match children
    case RenderProp(render) => render(matches)
    case Element(node) => if matches then Some(node) else None
  }

  /**
   * Mounting the component: render with the built query, commit the effect,
   * and render again with the tracker's flag. The output is the render
   * decision for a fresh evaluation of the built query, and false when there
   * is no query or no window.
   */
  method MountMediaQuery<N>(props: Props, children: Children<N>, env: Env) returns (out: Option<N>)
    ensures out == Output(children, InitialMatches(env, BuildQuery(props)))
    ensures BuildQuery(props).None? ==> out == Output(children, false)
  {
    var query := BuildQuery(props);
    var tracker := new MediaMatchTracker(query, env);
    tracker.Commit(query, env);
    out := Output(children, tracker.matches);
  }

  // ---------------------------------------------------------------------
  // Examples from the source's browser tests
  // ---------------------------------------------------------------------

  lemma FirstRecognisedKey(key: string, v: Value, f: Feature)
    requires key == PropName(f)
    ensures BuildQuery([(key, v)]) == Some(Template(f, v))
  {
    FeatureOfPropName(f);
    assert FirstKeyIndex([(key, v)]) == 0;
  }

  /** `minWidth={768}` builds "(min-width: 768px)". */
  lemma MinWidthQuery()
    ensures BuildQuery([("minWidth", Num(768))]) == Some("(min-width: 768px)")
  {
    assert Decimal.NatToString(7) == "7";
    assert Decimal.NatToString(76) == "76";
    assert Decimal.NatToString(768) == "768";
    assert Template(MinWidth, Num(768)) == "(min-width: " + "768" + "px)" == "(min-width: 768px)";
    FirstRecognisedKey("minWidth", Num(768), MinWidth);
  }

  /** A density string is inserted verbatim. */
  lemma ResolutionQuery()
    ensures BuildQuery([("minResolution", Str("1dppx"))]) == Some("(min-resolution: 1dppx)")
  {
    assert Template(MinResolution, Str("1dppx")) == "(min-resolution: " + "1dppx" + ")" == "(min-resolution: 1dppx)";
    FirstRecognisedKey("minResolution", Str("1dppx"), MinResolution);
  }

  /**
   * `minWidth={undefined}` still builds a non-blank query, so the effect
   * subscribes; nothing renders only because the environment finds that
   * text matching nothing.
   */
  lemma UndefinedValueStillBuildsQuery()
    ensures BuildQuery([("minWidth", Undefined)]) == Some("(min-width: undefinedpx)")
    ensures !Blank(BuildQuery([("minWidth", Undefined)]))
  {
    assert Template(MinWidth, Undefined) == "(min-width: " + "undefined" + "px)" == "(min-width: undefinedpx)";
    FirstRecognisedKey("minWidth", Undefined, MinWidth);
  }

  /** An unknown key, or no key at all, builds no query. */
  lemma NoQueryWithoutKnownKey()
    ensures BuildQuery([("unknownProp", Num(123))]) == None
    ensures BuildQuery([]) == None
  {
    assert FeatureOf("unknownProp") == None;
  }

  /** The viewport narrows below and widens past 768px while mounted. */
  method ResizeUpdatesMatches() returns (atStart: bool, narrowed: bool, widened: bool)
    ensures atStart && !narrowed && widened
  {
    var query := Some("(min-width: 768px)");
    var wide := Window(q => q == "(min-width: 768px)");
    var tracker := new MediaMatchTracker(query, wide);
    tracker.Commit(query, wide);
    atStart := tracker.matches;
    var live := tracker.cleanup.value;
    tracker.OnChange(live, false);
    narrowed := tracker.matches;
    tracker.OnChange(live, true);
    widened := tracker.matches;
  }

  /** Changing the query re-reads `matches` from the new query. */
  method QueryChangeReseeds() returns (before: bool, after: bool, liveQuery: string)
    ensures before && !after && liveQuery == "(min-width: 2000px)"
  {
    var env := Window(q => q == "(min-width: 768px)");
    var tracker := new MediaMatchTracker(Some("(min-width: 768px)"), env);
    tracker.Commit(Some("(min-width: 768px)"), env);
    before := tracker.matches;
    tracker.Commit(Some("(min-width: 2000px)"), env);
    after := tracker.matches;
    liveQuery := tracker.cleanup.value.query;
  }

  /** Changing to an empty query unsubscribes but keeps the last `matches`. */
  method BlankQueryKeepsLastValue() returns (after: bool, subscribed: bool)
    ensures after && !subscribed
  {
    var env := Window(q => q == "(min-width: 768px)");
    var tracker := new MediaMatchTracker(Some("(min-width: 768px)"), env);
    tracker.Commit(Some("(min-width: 768px)"), env);
    tracker.Commit(Some(""), env);
    after := tracker.matches;
    subscribed := tracker.cleanup.Some?;
  }

  /** Without a window: false, and no subscription after the effect. */
  method NoWindowNeverMatches() returns (matches: bool, subscribed: bool)
    ensures !matches && !subscribed
  {
    var tracker := new MediaMatchTracker(Some("(min-width: 768px)"), NoWindow);
    tracker.Commit(Some("(min-width: 768px)"), NoWindow);
    matches := tracker.matches;
    subscribed := tracker.cleanup.Some?;
  }
}
