/** The indicator view: a control that shows one indicator per item of a
    bound collection, keeps its `Count` in step with that collection, forwards
    count changes to its stack layout and computes a default size request. */
module IndicatorViews {
  import opened Collections

  /** Padding on each side of one indicator. */
  const DefaultPadding: int := 4
  /** `int.MaxValue`, the default of `MaximumVisible`. */
  const IntMaxValue: int := 0x7FFF_FFFF
  /** Default diameter of one indicator. */
  const DefaultIndicatorSize: real := 6.0
  /** The minimum size every default size request carries. */
  const MinimumRequest: Size := Size(10.0, 10.0)

  datatype Option<T> = None | Some(value: T)

  datatype IndicatorShape = Circle | Square
  datatype Color = DefaultColor | Rgba(red: real, green: real, blue: real, alpha: real)
  /** A data template, compared by identity. */
  datatype DataTemplate = DataTemplate(id: nat)

  datatype Size = Size(width: real, height: real)
  datatype SizeRequest = SizeRequest(request: Size, minimum: Size)

  /** How a property-changed callback ended: normally, or by dereferencing null. */
  datatype Outcome = Completed | NullReference

  /** The stack layout that renders the indicators. Only the calls the view
      makes on it are recorded: the arguments of ResetIndicatorCount, oldest first. */
  class IndicatorStackLayout {
    var resets: seq<int>

    constructor ()
      ensures resets == []
    {
      resets := [];
    }

    method ResetIndicatorCount(oldCount: int)
      modifies this
      ensures resets == old(resets) + [oldCount]
    {
      resets := resets + [oldCount];
    }
  }

  /** The `IndicatorLayout` slot: empty, an indicator stack layout, or some
      other layout assigned through the public property. */
  datatype LayoutSlot = NoLayout | StackLayout(layout: IndicatorStackLayout) | OtherLayout

  /** The change subscriptions that should exist for a source: one if it
      raises change notifications, none otherwise. */
  function SubscriptionsFor(source: Collection?): (r: multiset<Collection>)
    ensures |r| <= 1
    ensures forall c | c in r :: c == source
    ensures source != null && source.notifies ==> source in r
    ensures |r| == 1 <==> source != null && source.notifies
  {
    if source != null && source.notifies then multiset{source} else multiset{}
  }

  /** The subscriptions after unsubscribing the old source (when it notifies)
      and then subscribing the new one (when it notifies). */
  function Resubscribe(subs: multiset<Collection>, oldSource: Collection?, newSource: Collection?): (r: multiset<Collection>)
    ensures newSource != null && newSource.notifies ==> newSource in r
    ensures oldSource != null && oldSource.notifies && oldSource != newSource ==>
              r[oldSource] == if subs[oldSource] == 0 then 0 else subs[oldSource] - 1
    ensures (oldSource == null || !oldSource.notifies) && (newSource == null || !newSource.notifies) ==> r == subs
  {
    subs - SubscriptionsFor(oldSource) + SubscriptionsFor(newSource)
  }

  /** Resubscribing touches only the old and the new source's registrations. */
  lemma ResubscribeLeavesOthers(subs: multiset<Collection>, oldSource: Collection?, newSource: Collection?, c: Collection)
    requires c != oldSource && c != newSource
    ensures Resubscribe(subs, oldSource, newSource)[c] == subs[c]
  {
  }

  /** Detach-before-attach keeps exactly one subscription, to the current
      source: if only the old source was subscribed, afterwards only the new
      one is, and the old one no longer is. */
  lemma ResubscribeKeepsOneSubscription(subs: multiset<Collection>, oldSource: Collection?, newSource: Collection?)
    requires subs == SubscriptionsFor(oldSource)
    ensures Resubscribe(subs, oldSource, newSource) == SubscriptionsFor(newSource)
    ensures oldSource != null && oldSource != newSource ==> oldSource !in Resubscribe(subs, oldSource, newSource)
  {
  }

  /** Counts a sender's elements as the collection-changed handler does: the
      direct count of an `ICollection`, otherwise one increment per successful
      MoveNext of its enumerator. `moveNexts` is a ghost step count: the number
      of MoveNext calls made, as the body reports it. */
  method Recount(sender: Sender) returns (count: int, ghost moveNexts: nat)
    ensures sender.Enumerable? ==> count == |sender.source.items|
    ensures !sender.Enumerable? ==> count == 0
    ensures sender.Enumerable? && sender.source.isCollection ==> moveNexts == 0
    ensures sender.Enumerable? && !sender.source.isCollection ==> moveNexts == |sender.source.items| + 1
    ensures !sender.Enumerable? ==> moveNexts == 0
  {
    if sender.Enumerable? && sender.source.isCollection {
      return |sender.source.items|, 0;
    }
    count := 0;
    var enumerator: Enumerator? := null;
    if sender.Enumerable? {
      enumerator := new Enumerator(sender.source.items);
    }
    // `enumerator?.MoveNext() ?? false`: a null enumerator ends the loop at once
    var more := false;
    if enumerator != null {
      more := enumerator.MoveNext();
    }
    while more
      invariant enumerator == null ==> !more && count == 0
      invariant enumerator != null ==> enumerator.Valid() && enumerator.items == sender.source.items
      invariant enumerator != null && more ==> count == enumerator.yielded - 1 && enumerator.calls == enumerator.yielded
      invariant enumerator != null && !more ==>
                  count == enumerator.yielded == |enumerator.items| && enumerator.calls == enumerator.yielded + 1
      decreases if enumerator == null then 0 else |enumerator.items| - enumerator.yielded + (if more then 1 else 0)
    {
      count := count + 1;
      more := enumerator.MoveNext();
    }
    moveNexts := if enumerator == null then 0 else enumerator.calls;
  }

  class IndicatorView {
    var indicatorsShape: IndicatorShape
    var position: int
    var count: int
    var maximumVisible: int
    var indicatorTemplate: Option<DataTemplate>
    var hideSingle: bool
    var indicatorColor: Color
    var selectedIndicatorColor: Color
    var indicatorSize: real
    var itemsSource: Collection?
    var indicatorLayout: LayoutSlot
    /** The collections whose change notifications this view's handler is
        registered for, with multiplicity. */
    var subscriptions: multiset<Collection>

    /** The subscription invariant: the view listens to its current source
        exactly once when that source notifies, and to nothing else. */
    ghost predicate Valid()
      reads this
    {
      subscriptions == SubscriptionsFor(itemsSource)
    }

    /** The layout object count changes are forwarded to, if any. */
    function LayoutObjects(): set<object>
      reads this`indicatorLayout
    {
      if indicatorLayout.StackLayout? then {indicatorLayout.layout} else {}
    }

    /** The ResetIndicatorCount calls the current stack layout has received. */
    ghost function ForwardedResets(): seq<int>
      reads this`indicatorLayout, LayoutObjects()
    {
      if indicatorLayout.StackLayout? then indicatorLayout.layout.resets else []
    }

    /** The property defaults. */
    constructor ()
      ensures Valid()
      ensures count == 0 && position == 0 && maximumVisible == IntMaxValue && hideSingle
      ensures indicatorSize == DefaultIndicatorSize && indicatorsShape == Circle
      ensures indicatorColor == DefaultColor && selectedIndicatorColor == DefaultColor
      ensures indicatorTemplate == None && itemsSource == null && indicatorLayout == NoLayout
      ensures subscriptions == multiset{}
    {
      indicatorsShape := Circle;
      position := 0;
      count := 0;
      maximumVisible := IntMaxValue;
      indicatorTemplate := None;
      hideSingle := true;
      indicatorColor := DefaultColor;
      selectedIndicatorColor := DefaultColor;
      indicatorSize := DefaultIndicatorSize;
      itemsSource := null;
      indicatorLayout := NoLayout;
      subscriptions := multiset{};
    }

    /** The `Count` setter; on a change the previous count is forwarded to the
        layout when, and only when, it is an indicator stack layout. */
    method SetCount(value: int)
      modifies this`count, LayoutObjects()
      ensures count == value
      ensures ForwardedResets() ==
                old(ForwardedResets()) + (if old(count) != value && indicatorLayout.StackLayout? then [old(count)] else [])
      ensures old(count) == value || !indicatorLayout.StackLayout? ==> unchanged(LayoutObjects())
    {
      if value != count {
        var previous := count;
        count := value;
        if indicatorLayout.StackLayout? {
          indicatorLayout.layout.ResetIndicatorCount(previous);
        }
      }
    }

    /** The `Position` setter; it has no callback. */
    method SetPosition(value: int)
      modifies this`position
      ensures position == value
    {
      position := value;
    }

    /** The `IndicatorLayout` setter. */
    method SetIndicatorLayout(value: LayoutSlot)
      modifies this`indicatorLayout
      ensures indicatorLayout == value
    {
      indicatorLayout := value;
    }

    /** The collection-changed handler: `Count` becomes the sender's element
        count, whatever kind of change was reported. */
    method OnCollectionChanged(sender: Sender)
      modifies this`count, LayoutObjects()
      ensures count == SenderCount(sender)
      ensures ForwardedResets() ==
                old(ForwardedResets()) + (if old(count) != count && indicatorLayout.StackLayout? then [old(count)] else [])
    {
      var recounted, _ := Recount(sender);
      SetCount(recounted);
    }

    /** `source.CollectionChanged -= OnCollectionChanged` when the source notifies. */
    method Unsubscribe(source: Collection?)
      modifies this`subscriptions
      ensures subscriptions == old(subscriptions) - SubscriptionsFor(source)
    {
      if source != null && source.notifies {
        subscriptions := subscriptions - multiset{source};
      }
    }

    /** `source.CollectionChanged += OnCollectionChanged` when the source notifies. */
    method Subscribe(source: Collection?)
      modifies this`subscriptions
      ensures subscriptions == old(subscriptions) + SubscriptionsFor(source)
    {
      if source != null && source.notifies {
        subscriptions := subscriptions + multiset{source};
      }
    }

    /** Called with the previous source after `ItemsSource` changed: detach
        from the old source, attach to the new one, then recount. */
    method ResetItemsSource(oldSource: Collection?)
      modifies this`subscriptions, this`count, LayoutObjects()
      ensures subscriptions == Resubscribe(old(subscriptions), oldSource, itemsSource)
      ensures old(subscriptions) == SubscriptionsFor(oldSource) ==> subscriptions == SubscriptionsFor(itemsSource)
      ensures count == SourceCount(itemsSource)
      ensures ForwardedResets() ==
                old(ForwardedResets()) + (if old(count) != count && indicatorLayout.StackLayout? then [old(count)] else [])
    {
      ghost var before := subscriptions;
      Unsubscribe(oldSource);
      Subscribe(itemsSource);
      OnCollectionChanged(SenderOf(itemsSource));
      if before == SubscriptionsFor(oldSource) {
        ResubscribeKeepsOneSubscription(before, oldSource, itemsSource);
      }
    }

    /** The `ItemsSource` setter: on a change the view resubscribes and recounts. */
    method SetItemsSource(value: Collection?)
      requires Valid()
      modifies this`itemsSource, this`subscriptions, this`count, LayoutObjects()
      ensures Valid()
      ensures itemsSource == value
      ensures value != old(itemsSource) ==> count == SourceCount(value)
      ensures value != old(itemsSource) ==>
                ForwardedResets() ==
                old(ForwardedResets()) + (if old(count) != count && indicatorLayout.StackLayout? then [old(count)] else [])
      ensures value == old(itemsSource) ==> count == old(count) && unchanged(LayoutObjects())
      ensures old(itemsSource) != null && old(itemsSource) != value ==> old(itemsSource) !in subscriptions
    {
      if value != itemsSource {
        var previous := itemsSource;
        itemsSource := value;
        ResetItemsSource(previous);
      }
    }

    /** `source` raises its change notification: it reaches the handler only
        through a subscription of this view. */
    method CollectionChanged(source: Collection)
      modifies this`count, LayoutObjects()
      ensures source !in subscriptions ==> count == old(count) && unchanged(LayoutObjects())
      ensures source in subscriptions ==> count == |source.items|
      ensures source in subscriptions ==>
                ForwardedResets() ==
                old(ForwardedResets()) + (if old(count) != count && indicatorLayout.StackLayout? then [old(count)] else [])
      ensures Valid() && source != itemsSource ==> count == old(count)
      ensures Valid() && source == itemsSource && source.notifies ==> count == |source.items|
    {
      if source in subscriptions {
        OnCollectionChanged(Enumerable(source));
      }
    }

    /** Reaction to a new `IndicatorTemplate`: a template installs a fresh
        stack layout; no template keeps an existing layout, and with no layout
        it dereferences a null stack layout. */
    method UpdateIndicatorLayout(newValue: Option<DataTemplate>) returns (outcome: Outcome)
      modifies this`indicatorLayout
      ensures newValue.Some? ==>
                outcome == Completed && indicatorLayout.StackLayout? &&
                fresh(indicatorLayout.layout) && indicatorLayout.layout.resets == []
      ensures newValue.None? && old(indicatorLayout) != NoLayout ==>
                outcome == Completed && indicatorLayout == old(indicatorLayout)
      ensures newValue.None? && old(indicatorLayout) == NoLayout ==>
                outcome == NullReference && indicatorLayout == NoLayout
    {
      if newValue.Some? {
        var layout := new IndicatorStackLayout();
        SetIndicatorLayout(StackLayout(layout));
        outcome := Completed;
      } else if indicatorLayout == NoLayout {
        // the layout is null, so `(IndicatorLayout as IndicatorStackLayout).Remove()` throws
        outcome := NullReference;
      } else {
        outcome := Completed;
      }
    }

    /** The `IndicatorTemplate` setter: the new value is stored, and on a change
        the layout is updated. */
    method SetIndicatorTemplate(value: Option<DataTemplate>) returns (outcome: Outcome)
      modifies this`indicatorTemplate, this`indicatorLayout
      ensures indicatorTemplate == value
      ensures value == old(indicatorTemplate) ==> outcome == Completed && indicatorLayout == old(indicatorLayout)
      ensures value != old(indicatorTemplate) && value.Some? ==>
                outcome == Completed && indicatorLayout.StackLayout? &&
                fresh(indicatorLayout.layout) && indicatorLayout.layout.resets == []
      ensures value != old(indicatorTemplate) && value.None? && old(indicatorLayout) != NoLayout ==>
                outcome == Completed && indicatorLayout == old(indicatorLayout)
      ensures value != old(indicatorTemplate) && value.None? && old(indicatorLayout) == NoLayout ==>
                outcome == NullReference && indicatorLayout == NoLayout
    {
      if value != indicatorTemplate {
        indicatorTemplate := value;
        outcome := UpdateIndicatorLayout(value);
      } else {
        outcome := Completed;
      }
    }

    /** The size request: the templated base request when a template is set,
        otherwise one indicator plus padding per item, one indicator high,
        with a fixed minimum. */
    function OnMeasure(baseRequest: SizeRequest): (r: SizeRequest)
      reads this
      ensures indicatorTemplate.Some? ==> r == baseRequest
      ensures indicatorTemplate.None? ==> r.minimum == MinimumRequest
      ensures indicatorTemplate.None? ==> r.request.height == indicatorSize
      ensures indicatorTemplate.None? ==>
                r.request.width == count as real * (indicatorSize + 2.0 * DefaultPadding as real)
    {
      if indicatorTemplate.Some? then baseRequest
      else
        var defaultSize := indicatorSize + DefaultPadding as real + DefaultPadding as real;
        SizeRequest(Size(count as real * defaultSize, indicatorSize), MinimumRequest)
    }
  }

  /** Only the view's current source can change its count: under the
      subscription invariant it is the one collection subscribed to. */
  lemma OnlyCurrentSourceSubscribed(view: IndicatorView, c: Collection)
    requires view.Valid()
    ensures c in view.subscriptions <==> c == view.itemsSource && c.notifies
  {
  }

  /** With no items and no template the request has zero width: the 10 x 10
      minimum is carried alongside, not substituted. */
  lemma MeasureWithoutItems(view: IndicatorView, baseRequest: SizeRequest)
    requires view.indicatorTemplate.None? && view.count == 0
    ensures view.OnMeasure(baseRequest) == SizeRequest(Size(0.0, view.indicatorSize), Size(10.0, 10.0))
  {
  }

  /** Three items at the default indicator size request 42 x 6. */
  lemma MeasureThreeDefaultIndicators(view: IndicatorView, baseRequest: SizeRequest)
    requires view.indicatorTemplate.None? && view.count == 3 && view.indicatorSize == DefaultIndicatorSize
    ensures view.OnMeasure(baseRequest).request == Size(42.0, 6.0)
  {
  }

  /** Each further item widens the default request by one indicator and its padding. */
  lemma MeasureWidthPerItem(a: IndicatorView, b: IndicatorView, baseRequest: SizeRequest)
    requires a.indicatorTemplate.None? && b.indicatorTemplate.None?
    requires a.indicatorSize == b.indicatorSize && b.count == a.count + 1
    ensures b.OnMeasure(baseRequest).request.width ==
              a.OnMeasure(baseRequest).request.width + a.indicatorSize + 2.0 * DefaultPadding as real
  {
  }

  /** A paged view whose position and items source an indicator view can follow. */
  class CarouselView {
    var position: int
    var itemsSource: Collection?

    constructor (position: int, itemsSource: Collection?)
      ensures this.position == position && this.itemsSource == itemsSource
    {
      this.position := position;
      this.itemsSource := itemsSource;
    }
  }

  /** Links an indicator view to a carousel view: nothing happens when either
      is null; otherwise the bindings take over the carousel's current
      position and items source. */
  method LinkToCarouselView(view: IndicatorView?, carousel: CarouselView?)
    requires view != null ==> view.Valid()
    modifies view, if view != null then view.LayoutObjects() else {}
    ensures view != null ==> view.Valid()
    ensures view != null && carousel == null ==> unchanged(view) && unchanged(view.LayoutObjects())
    ensures view != null && carousel != null ==>
              view.position == carousel.position && view.itemsSource == carousel.itemsSource
    ensures view != null && carousel != null && carousel.itemsSource != old(view.itemsSource) ==>
              view.count == SourceCount(carousel.itemsSource)
    ensures view != null && carousel != null && carousel.itemsSource != old(view.itemsSource) ==>
              view.ForwardedResets() ==
              old(view.ForwardedResets()) + (if old(view.count) != view.count && view.indicatorLayout.StackLayout? then [old(view.count)] else [])
    ensures view != null && carousel != null && carousel.itemsSource == old(view.itemsSource) ==>
              view.count == old(view.count) && unchanged(old(view.LayoutObjects()))
    ensures view != null ==>
              view.indicatorTemplate == old(view.indicatorTemplate) && view.indicatorLayout == old(view.indicatorLayout) &&
              view.indicatorSize == old(view.indicatorSize) && view.indicatorsShape == old(view.indicatorsShape) &&
              view.indicatorColor == old(view.indicatorColor) &&
              view.selectedIndicatorColor == old(view.selectedIndicatorColor) &&
              view.maximumVisible == old(view.maximumVisible) && view.hideSingle == old(view.hideSingle)
  {
    if carousel == null || view == null {
      return;
    }
    view.SetPosition(carousel.position);
    view.SetItemsSource(carousel.itemsSource);
  }

  /** Replacing the items source A by B and then changing both: the change of
      A no longer reaches the view, the change of B does. */
  method ReplaceSourceThenChangeBoth(first: seq<int>, second: seq<int>, firstLater: seq<int>, secondLater: seq<int>)
    returns (afterFirstChanged: int, afterSecondChanged: int)
    ensures afterFirstChanged == |second|
    ensures afterSecondChanged == |secondLater|
  {
    var view := new IndicatorView();
    var a := new Collection(first, false, true);
    var b := new Collection(second, false, true);
    view.SetItemsSource(a);
    view.SetItemsSource(b);
    a.SetItems(firstLater);
    view.CollectionChanged(a);
    afterFirstChanged := view.count;
    b.SetItems(secondLater);
    view.CollectionChanged(b);
    afterSecondChanged := view.count;
  }
}
