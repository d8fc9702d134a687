# IndicatorView count tracking and layout switching

A Dafny model of the `IndicatorView` control of Xamarin.Forms
(`Xamarin.Forms.Core/IndicatorView.cs`). The control shows one indicator
(for example a carousel page dot) per item of a bound collection. The model
covers these parts:

- keeping `Count` in step with the `ItemsSource` collection;
- subscribing to and unsubscribing from the collection's change notifications;
- forwarding each count change to the indicator stack layout;
- installing a layout when an `IndicatorTemplate` is set;
- the default size request from `OnMeasure`;
- the null guard of the link to a `CarouselView`;
- the property defaults.

Files:

- `collections.dfy` (module `Collections`). A collection is a `Collection`
  object. It has mutable `items` and two capability flags: `isCollection`
  means it is an `ICollection` with a direct `Count`, and `notifies` means it
  is an `INotifyCollectionChanged`. An `Enumerator` counts its own `MoveNext`
  calls, so the model can show when a collection was enumerated. A `Sender`
  is what the change handler receives: null, a non-enumerable object, or an
  enumerable collection.
- `indicator_view.dfy` (module `IndicatorViews`). The `IndicatorView` class
  has the control's bindable properties as fields. `subscriptions` is the
  multiset of collections whose `CollectionChanged` event has this view's
  handler attached. `indicatorLayout` is either empty, an
  `IndicatorStackLayout`, or another layout. An `IndicatorStackLayout`
  records the arguments of the `ResetIndicatorCount` calls it receives.

Property setters are methods. Each setter runs its property-changed callback
with the old value only when the new value differs from the old one. This is
an assumption about `BindableProperty`, which is not part of this model.
Nothing in `IndicatorView.cs` establishes it.

The object invariant `IndicatorView.Valid()` is the subscription invariant.
The view is subscribed exactly once to its current source when that source
notifies, and to nothing else. The constructor establishes it and
`SetItemsSource` preserves it. Under this invariant, a change to a
collection that has been replaced does not reach the handler
(`CollectionChanged`, `ReplaceSourceThenChangeBoth`).

The model follows the code in two places where a reader might expect otherwise:

- Without a template, `OnMeasure` returns the request `Count * (IndicatorSize + 8)` by
  `IndicatorSize` with a separate minimum of 10 x 10. With no items the
  request has zero width. The minimum travels beside the request and does not
  replace it (`MeasureWithoutItems`).
- `UpdateIndicatorLayout` clears nothing when the template becomes null. Its
  second arm runs only when `IndicatorLayout` is null, so the `Remove()` call
  at line 146 always dereferences null and line 147 is never reached. The
  model keeps what the code does:
  - a new template always installs a fresh stack layout;
  - clearing the template while a layout exists keeps that layout;
  - clearing the template when there is no layout calls `Remove()` on a null
    reference. This gives the `NullReference` outcome. The template has
    already been stored by then.

## Model

| member | source | states |
|---|---|---|
| `IndicatorViews.Recount` | Xamarin.Forms.Core/IndicatorView.cs:180-193 | An `ICollection` sender gives its direct count with no `MoveNext` call. Any other enumerable sender gives its number of elements after one `MoveNext` call more than it has elements. A null or non-enumerable sender gives 0 with no enumeration. The call count is a ghost step count reported by the body. The loop invariant is: count = elements yielded so far. |
| `IndicatorViews.IndicatorView.OnCollectionChanged` | Xamarin.Forms.Core/IndicatorView.cs:180-194 | Whatever kind of change is reported, `Count` becomes the sender's element count (0 for null or non-enumerable). The stack layout receives the previous count exactly when the count changed. |
| `IndicatorViews.IndicatorView.SetCount` | Xamarin.Forms.Core/IndicatorView.cs:19-20 | A change of `Count` passes the previous value to `ResetIndicatorCount` only when the layout is an `IndicatorStackLayout`. Otherwise no layout object changes. |
| `IndicatorViews.SubscriptionsFor` | Xamarin.Forms.Core/IndicatorView.cs:171-175 | The subscriptions a source should have: at most one, to that source only, and present exactly when the source notifies. |
| `IndicatorViews.Resubscribe` | Xamarin.Forms.Core/IndicatorView.cs:171-175 | Detach, then attach. A notifying new source ends up subscribed. A notifying old source, if different from the new one, loses one registration. Sources that do not notify leave the subscriptions as they were. |
| `IndicatorViews.ResubscribeLeavesOthers` | Xamarin.Forms.Core/IndicatorView.cs:171-175 | Registrations of collections other than the old and new source do not change. |
| `IndicatorViews.ResubscribeKeepsOneSubscription` | Xamarin.Forms.Core/IndicatorView.cs:171-175 | If the subscriptions were exactly those of the old source, afterwards they are exactly those of the new source, and a replaced old source is no longer subscribed. |
| `IndicatorViews.IndicatorView.Unsubscribe` | Xamarin.Forms.Core/IndicatorView.cs:171-172 | `-=` removes one registration of the source, and only when the source notifies. |
| `IndicatorViews.IndicatorView.Subscribe` | Xamarin.Forms.Core/IndicatorView.cs:174-175 | `+=` adds one registration of the source, and only when the source notifies. |
| `IndicatorViews.IndicatorView.ResetItemsSource` | Xamarin.Forms.Core/IndicatorView.cs:169-178 | The subscriptions become the detach-then-attach result and keep the single-subscription property. `Count` becomes the current source's length, or 0 when it is null, whether or not the source notifies. |
| `IndicatorViews.IndicatorView.SetItemsSource` | Xamarin.Forms.Core/IndicatorView.cs:35-36 | A changed source is stored, recounted and resubscribed. The subscription invariant is preserved, and the replaced source is no longer subscribed. Setting the same source again changes nothing. |
| `IndicatorViews.OnlyCurrentSourceSubscribed` | Xamarin.Forms.Core/IndicatorView.cs:171-175 | Under the subscription invariant, a collection is subscribed exactly when it is the current source and notifies. |
| `IndicatorViews.IndicatorView.CollectionChanged` | Xamarin.Forms.Core/IndicatorView.cs:174-177 | A collection's change notification reaches the handler only through a subscription. Under the invariant, a change to any collection other than the current source leaves `Count` unchanged. A change to the current notifying source sets `Count` to its new length. A delivered change passes the previous count to the stack layout exactly when the count changed. |
| `IndicatorViews.ReplaceSourceThenChangeBoth` | Xamarin.Forms.Core/IndicatorView.cs:169-178 | After the source changes from A to B, a later change of A leaves `Count` at B's length, and a later change of B sets it to B's new length. |
| `IndicatorViews.IndicatorView.UpdateIndicatorLayout` | Xamarin.Forms.Core/IndicatorView.cs:138-149 | A non-null template installs a fresh, empty `IndicatorStackLayout`. A null template with a layout keeps the layout. A null template without a layout ends in `NullReference`. |
| `IndicatorViews.IndicatorView.SetIndicatorTemplate` | Xamarin.Forms.Core/IndicatorView.cs:24-25 | The template is stored. On a change, the three outcomes of the layout update follow. An unchanged template touches nothing. |
| `IndicatorViews.IndicatorView.SetIndicatorLayout` | Xamarin.Forms.Core/IndicatorView.cs:51-55 | The layout slot takes the given value. |
| `IndicatorViews.IndicatorView.SetPosition` | Xamarin.Forms.Core/IndicatorView.cs:57-61 | `Position` takes the given value, with no callback. |
| `IndicatorViews.IndicatorView.OnMeasure` | Xamarin.Forms.Core/IndicatorView.cs:125-136 | With a template, the result is the base request unchanged. Without one, the request is `Count * (IndicatorSize + 2 * 4)` wide and `IndicatorSize` high, and the minimum is always 10 x 10. |
| `IndicatorViews.MeasureWithoutItems` | Xamarin.Forms.Core/IndicatorView.cs:132-134 | With no items and no template, the request is zero-width and the minimum is 10 x 10. |
| `IndicatorViews.MeasureThreeDefaultIndicators` | Xamarin.Forms.Core/IndicatorView.cs:132-134 | Three items at the default size 6 request 42 x 6. |
| `IndicatorViews.MeasureWidthPerItem` | Xamarin.Forms.Core/IndicatorView.cs:132-134 | Each extra item widens the request by one indicator plus twice the padding. |
| `IndicatorViews.IndicatorView.constructor` | Xamarin.Forms.Core/IndicatorView.cs:15-38 | The defaults: `Count` 0, `Position` 0, `MaximumVisible` = `int.MaxValue`, `HideSingle` true, `IndicatorSize` 6.0, circle shape, default colours, no template, source or layout, and no subscriptions. |
| `IndicatorViews.LinkToCarouselView` | Xamarin.Forms.Core/IndicatorView.cs:151-167 | If either argument is null, nothing changes. Otherwise the view takes the carousel's position and items source. A changed source is recounted, and the previous count goes to the stack layout exactly when the count changed. An unchanged source leaves the count and the layout alone. The template, layout slot and presentation properties never change. |
| `Collections.Enumerator.MoveNext` | Xamarin.Forms.Core/IndicatorView.cs:188-189 | Returns true exactly while elements remain, moves past one element when it does, and counts every call. |
| `Collections.SenderOfCount` | Xamarin.Forms.Core/IndicatorView.cs:177 | Recounting through the sender built from the current source gives that source's length, and 0 for a null source. |

## Left out

- `src/Platform.Handlers/src/Xamarin.Platform.Handlers/Handlers/ActivityIndicator/ActivityIndicatorHandler.Mac.cs`: it only constructs a native AppKit progress indicator and has no logic of its own.
- The bindable-property engine (`SetValue`, `GetValue`, change detection) is not modelled. Setters are methods that run their callback only on a real change.
- IndicatorViews.LinkToCarouselView: models only the values that the two bindings copy when they are set up. Later tracking of the carousel by those bindings is part of the binding engine, which is not modelled.
- The `ItemsSourceBy` attached property (lines 111-123) is binding-engine storage. Only its callback, `LinkToCarouselView`, is modelled.
- `TemplateUtilities.OnContentChanged`, the callback of `IndicatorLayout`, is not part of this model.
- The internals of `IndicatorStackLayout` are not modelled. It only records the arguments of `ResetIndicatorCount`.
- `IndicatorStackLayout.Remove()` is not modelled. As written, line 146 reaches it only through a null reference, so the model gives the `NullReference` outcome there.
- `base.OnMeasure` of `TemplatedView` is not modelled. Its result is the `baseRequest` parameter of `OnMeasure`, and the width and height constraints are left out because only the base call reads them.
- IndicatorViews.IndicatorView.OnMeasure: uses exact `real` arithmetic, not IEEE `double` rounding.
- Presentation-only properties (`IndicatorsShape`, `IndicatorColor`, `SelectedIndicatorColor`, `HideSingle`, `MaximumVisible`) are fields with their defaults and no setter methods. The control attaches no behaviour to them. `IndicatorSize` is also a plain field: it has no callback, and `OnMeasure` reads it.
- The `ExperimentalFlags.VerifyFlagEnabled` check in the constructor is a global feature-flag lookup and is left out.
- The `NotifyCollectionChangedEventArgs` argument is not modelled because the handler never reads it.
- Event delegates are modelled as a multiset of subscribed collections. Invocation order and thread affinity are left out.
- IndicatorViews.IndicatorView.CollectionChanged: runs the handler once for a subscribed collection, even if it is registered more than once. A repeated run would compute the same `Count` and, because nothing changes, call nothing. Duplicate registrations cannot arise under `Valid()`.
- IndicatorViews.Recount: the enumeration counter is an unbounded integer. The 32-bit `int` of the source would wrap only past `int.MaxValue` elements.
- Collections.Enumerator.MoveNext: enumerates the items the collection held when enumeration began. It does not model a collection that is modified during enumeration.
- Collections.Collection: the direct `Count` of an `ICollection` is taken to be the number of elements its enumerator yields. A collection whose `Count` disagrees with its enumeration is not modelled.
