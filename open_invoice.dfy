/**
 * The open-invoice form: up to four fieldsets (company details, personal
 * details, billing address, delivery address) and an optional consent
 * checkbox. Each fieldset reports its own `(data, isValid)`; the form keeps
 * the reports in three maps keyed by fieldset name (`data`, `valid`,
 * `errors`) and, after every change, folds them into one payload
 * `{data, isValid}` that it hands to its `onChange` callback.
 */
module OpenInvoice {

  datatype Option<T> = None | Some(value: T)

  /** How a fieldset is configured. Every value except Hidden renders it. */
  datatype Visibility = Shown | Editable | ReadOnly | Hidden

  predicate IsShown(v: Visibility) {
    v != Hidden
  }

  /** The configuration given at mount; it never changes afterwards. */
  datatype Config = Config(
    companyDetails: Visibility,
    personalDetails: Visibility,
    billingAddress: Visibility,
    deliveryAddress: Visibility,
    consentCheckboxLabel: Option<string>)

  /** The consent checkbox exists when its label is truthy: given and not empty. */
  predicate ShowConsentCheckbox(cfg: Config) {
    cfg.consentCheckboxLabel.Some? && cfg.consentCheckboxLabel.value != ""
  }

  /** The names under which the form stores state. */
  datatype Key =
    | CompanyDetails
    | PersonalDetails
    | BillingAddress
    | DeliveryAddress
    | SeparateDeliveryAddress
    | ConsentCheckbox

  /** The four keys that belong to a nested fieldset component. */
  predicate IsFieldset(k: Key) {
    k.CompanyDetails? || k.PersonalDetails? || k.BillingAddress? || k.DeliveryAddress?
  }

  /** The fieldset `k` is configured as anything but hidden. */
  predicate IsShownFieldset(cfg: Config, k: Key) {
    match k
    case CompanyDetails => IsShown(cfg.companyDetails)
    case PersonalDetails => IsShown(cfg.personalDetails)
    case BillingAddress => IsShown(cfg.billingAddress)
    case DeliveryAddress => IsShown(cfg.deliveryAddress)
    case _ => false
  }


  /**
   * A stored value: the record a fieldset reports, a checkbox state, or
   * `undefined` (what reading a missing key yields).
   */
  datatype Value = Undefined | Flag(on: bool) | Fields(entries: map<string, string>)

  /** JavaScript truthiness of a stored value (`!!v`); every record is truthy. */
  predicate Truthy(v: Value) {
    match v
    case Undefined => false
    case Flag(b) => b
    case Fields(_) => true
  }

  /** `data[k]`, which is `undefined` when the key is absent. */
  function Get(data: map<Key, Value>, k: Key): Value {
    if k in data then data[k] else Undefined
  }

  /** `!!valid[k]`: an absent validity flag counts as false. */
  predicate IsSet(valid: map<Key, bool>, k: Key) {
    k in valid && valid[k]
  }

  /** What a nested fieldset reports through its `onChange`. */
  datatype FieldsetState = FieldsetState(data: Value, isValid: bool)

  /** What the form hands to its own `onChange`. */
  datatype Payload = Payload(data: map<Key, Value>, isValid: bool)

  /** The delivery address takes part only when it is shown and toggled on. */
  predicate IncludeDeliveryAddress(cfg: Config, data: map<Key, Value>) {
    IsShown(cfg.deliveryAddress) && Truthy(Get(data, SeparateDeliveryAddress))
  }

  /**
   * Reference definition, key by key: does `k` currently take part in the
   * form, so that its validity flag matters?
   */
  predicate Applies(cfg: Config, data: map<Key, Value>, k: Key) {
    match k
    case SeparateDeliveryAddress => false
    case ConsentCheckbox => ShowConsentCheckbox(cfg)
    case DeliveryAddress => IncludeDeliveryAddress(cfg, data)
    case _ => IsShownFieldset(cfg, k)
  }

  /** `{ ...acc, ...(cond && { [k]: data[k] }) }`: adds one key, or nothing. */
  function Spread(acc: map<Key, Value>, cond: bool, data: map<Key, Value>, k: Key): map<Key, Value> {
    if cond then acc[k := Get(data, k)] else acc
  }

  /**
   * The validity half of the effect: one conjunct per fieldset, vacuously
   * true for a fieldset that is hidden or toggled off.
   */
  function FoldValid(cfg: Config, data: map<Key, Value>, valid: map<Key, bool>): bool {
    var companyDetailsValid := !IsShown(cfg.companyDetails) || IsSet(valid, CompanyDetails);
    var personalDetailsValid := !IsShown(cfg.personalDetails) || IsSet(valid, PersonalDetails);
    var billingAddressValid := !IsShown(cfg.billingAddress) || IsSet(valid, BillingAddress);
    var deliveryAddressValid := !IncludeDeliveryAddress(cfg, data) || IsSet(valid, DeliveryAddress);
    var consentCheckboxValid := !ShowConsentCheckbox(cfg) || IsSet(valid, ConsentCheckbox);
    companyDetailsValid && personalDetailsValid && billingAddressValid
    && deliveryAddressValid && consentCheckboxValid
  }

  /** The data half of the effect: the stored entries of the fieldsets that take part. */
  function AppliedData(cfg: Config, data: map<Key, Value>): map<Key, Value> {
    var withCompany := Spread(map[], IsShown(cfg.companyDetails), data, CompanyDetails);
    var withPersonal := Spread(withCompany, IsShown(cfg.personalDetails), data, PersonalDetails);
    var withBilling := Spread(withPersonal, IsShown(cfg.billingAddress), data, BillingAddress);
    Spread(withBilling, IncludeDeliveryAddress(cfg, data), data, DeliveryAddress)
  }

  /** The derivation the form runs after every state change. */
  function Derive(cfg: Config, data: map<Key, Value>, valid: map<Key, bool>): Payload {
    Payload(AppliedData(cfg, data), FoldValid(cfg, data, valid))
  }

  /** The form's state at mount: the caller's data, with the consent box unticked. */
  function InitialData(cfg: Config, propsData: map<Key, Value>): (r: map<Key, Value>)
    ensures ShowConsentCheckbox(cfg) ==> ConsentCheckbox in r && r[ConsentCheckbox] == Flag(false)
    ensures forall k :: k != ConsentCheckbox ==> Get(r, k) == Get(propsData, k)
    ensures !ShowConsentCheckbox(cfg) ==> r == propsData
  {
    if ShowConsentCheckbox(cfg) then propsData[ConsentCheckbox := Flag(false)] else propsData
  }

  // ---------------------------------------------------------------------
  // Properties of the derivation
  // ---------------------------------------------------------------------

  /** The fold: the payload is valid iff every key that takes part has a true flag. */
  lemma IsValidIff(cfg: Config, data: map<Key, Value>, valid: map<Key, bool>)
    ensures Derive(cfg, data, valid).isValid <==>
            forall k :: Applies(cfg, data, k) ==> IsSet(valid, k)
  {
  }

  /**
   * The payload's data has exactly the keys of the fieldsets that take part,
   * each carrying the stored value; never the consent checkbox and never the
   * delivery toggle.
   */
  lemma PayloadKeys(cfg: Config, data: map<Key, Value>, valid: map<Key, bool>)
    ensures forall k :: k in Derive(cfg, data, valid).data <==> IsFieldset(k) && Applies(cfg, data, k)
    ensures forall k :: k in Derive(cfg, data, valid).data ==> Derive(cfg, data, valid).data[k] == Get(data, k)
    ensures ConsentCheckbox !in Derive(cfg, data, valid).data
    ensures SeparateDeliveryAddress !in Derive(cfg, data, valid).data
  {
  }

  /**
   * The payload's data is determined by the delivery toggle's effect and the
   * stored entries of the fieldsets that take part: nothing else is read.
   */
  lemma AppliedDataDependsOnApplicable(cfg: Config, d1: map<Key, Value>, d2: map<Key, Value>)
    requires IncludeDeliveryAddress(cfg, d1) == IncludeDeliveryAddress(cfg, d2)
    requires forall k :: IsFieldset(k) && Applies(cfg, d1, k) ==> Get(d1, k) == Get(d2, k)
    ensures AppliedData(cfg, d1) == AppliedData(cfg, d2)
  {
  }

  /** A hidden or toggled-off fieldset is vacuously valid: its flag never matters. */
  lemma InapplicableFlagIgnored(cfg: Config, data: map<Key, Value>, valid: map<Key, bool>, k: Key, b: bool)
    requires !Applies(cfg, data, k)
    ensures Derive(cfg, data, valid[k := b]) == Derive(cfg, data, valid)
  {
  }

  /** Any one applicable fieldset reporting invalid makes the whole form invalid. */
  lemma ApplicableFlagFalseInvalidates(cfg: Config, data: map<Key, Value>, valid: map<Key, bool>, k: Key)
    requires Applies(cfg, data, k)
    ensures !Derive(cfg, data, valid[k := false]).isValid
  {
  }

  /** The payload does not look at the stored data of a fieldset that does not take part. */
  lemma InapplicableDataIgnored(cfg: Config, data: map<Key, Value>, valid: map<Key, bool>, k: Key, v: Value)
    requires k != SeparateDeliveryAddress && !Applies(cfg, data, k)
    ensures Derive(cfg, data[k := v], valid) == Derive(cfg, data, valid)
  {
  }

  /** A fieldset report that takes part shows up unchanged in the payload. */
  lemma FieldsetReportReachesPayload(cfg: Config, data: map<Key, Value>, valid: map<Key, bool>, key: Key, state: FieldsetState)
    requires IsFieldset(key) && Applies(cfg, data, key)
    ensures key in Derive(cfg, data[key := state.data], valid[key := state.isValid]).data
    ensures Derive(cfg, data[key := state.data], valid[key := state.isValid]).data[key] == state.data
  {
  }

  /**
   * Turning the separate delivery address on (when it is shown) adds the
   * delivery address to the payload's data and makes its flag a conjunct.
   */
  lemma ToggleOnAddsDeliveryAddress(cfg: Config, data: map<Key, Value>, valid: map<Key, bool>)
    requires IsShown(cfg.deliveryAddress)
    ensures var on := Derive(cfg, data[SeparateDeliveryAddress := Flag(true)], valid);
            var off := Derive(cfg, data[SeparateDeliveryAddress := Flag(false)], valid);
            && on.data.Keys == off.data.Keys + {DeliveryAddress}
            && DeliveryAddress !in off.data
            && (on.isValid <==> off.isValid && IsSet(valid, DeliveryAddress))
  {
  }

  /** When the delivery address is hidden, the toggle has no effect on the payload. */
  lemma ToggleIgnoredWhenHidden(cfg: Config, data: map<Key, Value>, valid: map<Key, bool>, checked: bool)
    requires !IsShown(cfg.deliveryAddress)
    ensures Derive(cfg, data[SeparateDeliveryAddress := Flag(checked)], valid) == Derive(cfg, data, valid)
  {
  }

  /**
   * Toggling the separate delivery address on and then off, starting from
   * off, gives back the same payload: data key set, values and validity.
   */
  lemma ToggleOnOffRestores(cfg: Config, data: map<Key, Value>, valid: map<Key, bool>)
    requires !Truthy(Get(data, SeparateDeliveryAddress))
    ensures Derive(cfg, data[SeparateDeliveryAddress := Flag(true)][SeparateDeliveryAddress := Flag(false)], valid)
         == Derive(cfg, data, valid)
  {
  }

  /** The consent handler never changes the payload's data. */
  lemma ConsentNotInPayload(cfg: Config, data: map<Key, Value>, valid: map<Key, bool>, checked: bool)
    ensures Derive(cfg, data[ConsentCheckbox := Flag(checked)], valid[ConsentCheckbox := checked]).data
         == Derive(cfg, data, valid).data
  {
  }

  /**
   * With a consent label, an unticked box blocks validity; a ticked one
   * leaves validity to the other keys that take part.
   */
  lemma ConsentGatesValidity(cfg: Config, data: map<Key, Value>, valid: map<Key, bool>, checked: bool)
    requires ShowConsentCheckbox(cfg)
    ensures Derive(cfg, data[ConsentCheckbox := Flag(checked)], valid[ConsentCheckbox := checked]).isValid
        <==> checked && forall k :: k != ConsentCheckbox && Applies(cfg, data, k) ==> IsSet(valid, k)
  {
    var d := data[ConsentCheckbox := Flag(checked)];
    var v := valid[ConsentCheckbox := checked];
    assert Get(d, SeparateDeliveryAddress) == Get(data, SeparateDeliveryAddress);
    IsValidIff(cfg, d, v);
    assert forall k :: Applies(cfg, d, k) == Applies(cfg, data, k);
  }

  /**
   * Worked example: company details and delivery address hidden, no consent
   * label; personal details report valid, the billing address invalid.
   */
  lemma ExampleBillingInvalid(data: map<Key, Value>, valid: map<Key, bool>)
    requires valid == map[PersonalDetails := true, BillingAddress := false]
    ensures var p := Derive(Config(Hidden, Shown, Shown, Hidden, None), data, valid);
            && !p.isValid
            && p.data.Keys == {PersonalDetails, BillingAddress}
  {
  }

  /**
   * At mount nothing has reported yet, so the form is valid only when no
   * fieldset and no consent checkbox takes part; in particular a configured
   * consent label makes the first payload invalid.
   */
  lemma InitialPayload(cfg: Config, propsData: map<Key, Value>)
    ensures Derive(cfg, InitialData(cfg, propsData), map[]).isValid <==>
            forall k :: !Applies(cfg, InitialData(cfg, propsData), k)
    ensures ShowConsentCheckbox(cfg) ==> !Derive(cfg, InitialData(cfg, propsData), map[]).isValid
  {
    IsValidIff(cfg, InitialData(cfg, propsData), map[]);
  }

  /**
   * A fieldset component is in the tree when it is shown; the delivery
   * address additionally needs its toggle on.
   */
  predicate Rendered(cfg: Config, data: map<Key, Value>, k: Key) {
    IsFieldset(k) && Applies(cfg, data, k)
  }

  /** Position of a fieldset's guarded call in `showValidation`: company first, delivery last. */
  function CallRank(k: Key): nat {
    match k
    case CompanyDetails => 0
    case PersonalDetails => 1
    case BillingAddress => 2
    case DeliveryAddress => 3
    case _ => 4
  }

  /**
   * The guarded `ref.current.showValidation()` calls, one per fieldset in
   * `order`: a fieldset is called when it is shown and its component handle
   * is attached (`mounted`). The calls keep the order of `order`.
   */
  function Fanout(cfg: Config, mounted: set<Key>, order: seq<Key>): (r: seq<Key>)
    requires forall i, j :: 0 <= i < j < |order| ==> CallRank(order[i]) < CallRank(order[j])
    ensures forall k :: k in r <==> k in order && IsShownFieldset(cfg, k) && k in mounted
    ensures forall i, j :: 0 <= i < j < |r| ==> CallRank(r[i]) < CallRank(r[j])
    ensures |r| > 0 ==> |order| > 0 && CallRank(order[0]) <= CallRank(r[0])
  {
    if order == [] then []
    else
      var k := order[0];
      var rest := Fanout(cfg, mounted, order[1..]);
      if IsShownFieldset(cfg, k) && k in mounted then [k] + rest else rest
  }

  /**
   * The fieldsets whose own `showValidation` the form invokes, in call
   * order: company details, personal details, billing address, delivery
   * address, each only when shown and attached.
   */
  function ValidationTargets(cfg: Config, mounted: set<Key>): (r: seq<Key>)
    ensures forall k :: k in r <==> IsShownFieldset(cfg, k) && k in mounted
    ensures forall i, j :: 0 <= i < j < |r| ==> CallRank(r[i]) < CallRank(r[j])
    ensures forall i, j :: 0 <= i < j < |r| ==> r[i] != r[j]
  {
    Fanout(cfg, mounted, [CompanyDetails, PersonalDetails, BillingAddress, DeliveryAddress])
  }

  /**
   * When exactly the rendered fieldsets are attached, validation is shown
   * on exactly the fieldsets whose data the payload carries, once each.
   */
  lemma ValidationReachesPayloadFieldsets(cfg: Config, data: map<Key, Value>, valid: map<Key, bool>, mounted: set<Key>)
    requires forall k :: k in mounted <==> Rendered(cfg, data, k)
    ensures forall k :: k in ValidationTargets(cfg, mounted) <==> k in Derive(cfg, data, valid).data
  {
  }

  /** The errors `showValidation` sets: only the consent flag, "required but unticked". */
  function ValidationErrors(cfg: Config, data: map<Key, Value>): (r: map<Key, bool>)
    ensures r.Keys <= {ConsentCheckbox}
    ensures ConsentCheckbox in r <==> ShowConsentCheckbox(cfg)
    ensures ConsentCheckbox in r ==> (r[ConsentCheckbox] <==> !Truthy(Get(data, ConsentCheckbox)))
  {
    if ShowConsentCheckbox(cfg) then map[ConsentCheckbox := !Truthy(Get(data, ConsentCheckbox))] else map[]
  }

  // ---------------------------------------------------------------------
  // The component
  // ---------------------------------------------------------------------

  /** One mounted open-invoice form. */
  class Component {
    const config: Config
    var data: map<Key, Value>
    var valid: map<Key, bool>
    var errors: map<Key, bool>
    var status: string
    /** Every payload handed to `onChange`, oldest first. */
    var emitted: seq<Payload>

    /**
     * The invariant every handler keeps: only the consent checkbox ever has
     * an error, and that error is the negation of its validity flag; when
     * the checkbox is shown its stored state agrees with its flag; the last
     * payload emitted is the derivation of the current state.
     */
    ghost predicate Valid()
      reads this
    {
      && errors.Keys <= {ConsentCheckbox}
      && (ConsentCheckbox in errors ==> errors[ConsentCheckbox] == !IsSet(valid, ConsentCheckbox))
      && (ShowConsentCheckbox(config) ==>
            ConsentCheckbox in data && (Truthy(data[ConsentCheckbox]) <==> IsSet(valid, ConsentCheckbox)))
      && |emitted| > 0
      && emitted[|emitted| - 1] == Derive(config, data, valid)
    }

    /** The payload most recently handed to `onChange`. */
    function LastPayload(): Payload
      reads this
      requires Valid()
    {
      emitted[|emitted| - 1]
    }

    /** Mounting: initial state, then the first derivation is emitted. */
    constructor (config: Config, propsData: map<Key, Value>)
      ensures this.config == config
      ensures data == InitialData(config, propsData)
      ensures valid == map[] && errors == map[] && status == "ready"
      ensures emitted == [Derive(config, data, valid)]
      ensures Valid()
    {
      this.config := config;
      data := InitialData(config, propsData);
      valid := map[];
      errors := map[];
      status := "ready";
      new;
      emitted := [Derive(config, data, valid)];
    }

    /** Re-runs the derivation and hands the result to `onChange`. */
    method Emit()
      modifies this`emitted
      ensures emitted == old(emitted) + [Derive(config, data, valid)]
    {
      emitted := emitted + [Derive(config, data, valid)];
    }

    /** A fieldset reported a new state: store its data and its validity under its key. */
    method HandleFieldset(key: Key, state: FieldsetState)
      requires IsFieldset(key)
      requires Valid()
      modifies this
      ensures data == old(data)[key := state.data]
      ensures valid == old(valid)[key := state.isValid]
      ensures errors == old(errors) && status == old(status)
      ensures emitted == old(emitted) + [Derive(config, data, valid)]
      ensures Valid()
    {
      data := data[key := state.data];
      valid := valid[key := state.isValid];
      Emit();
    }

    /** The "separate delivery address" checkbox changed. */
    method HandleSeparateDeliveryAddress(checked: bool)
      requires Valid()
      modifies this
      ensures data == old(data)[SeparateDeliveryAddress := Flag(checked)]
      ensures valid == old(valid) && errors == old(errors) && status == old(status)
      ensures emitted == old(emitted) + [Derive(config, data, valid)]
      ensures Valid()
    {
      data := data[SeparateDeliveryAddress := Flag(checked)];
      Emit();
    }

    /** The consent checkbox changed: it is its own data, flag and (negated) error. */
    method HandleConsentCheckbox(checked: bool)
      requires Valid()
      modifies this
      ensures data == old(data)[ConsentCheckbox := Flag(checked)]
      ensures valid == old(valid)[ConsentCheckbox := checked]
      ensures errors == old(errors)[ConsentCheckbox := !checked]
      ensures status == old(status)
      ensures emitted == old(emitted) + [Derive(config, data, valid)]
      ensures Valid()
    {
      data := data[ConsentCheckbox := Flag(checked)];
      valid := valid[ConsentCheckbox := checked];
      errors := errors[ConsentCheckbox := !checked];
      Emit();
    }

    /**
     * Asks every attached, shown fieldset to show its errors (returned in
     * call order) and replaces `errors` wholesale. Since only `errors`
     * changes, the payload emitted is the previous one again.
     */
    method ShowValidation(mounted: set<Key>) returns (calls: seq<Key>)
      requires Valid()
      modifies this
      ensures calls == ValidationTargets(config, mounted)
      ensures errors == ValidationErrors(config, old(data))
      ensures data == old(data) && valid == old(valid) && status == old(status)
      ensures emitted == old(emitted) + [old(LastPayload())]
      ensures Valid()
    {
      calls := ValidationTargets(config, mounted);
      errors := ValidationErrors(config, data);
      Emit();
    }

    /** `setStatus`: stored and passed to the pay-button renderer only. */
    method SetStatus(newStatus: string)
      requires Valid()
      modifies this`status
      ensures status == newStatus
      ensures Valid()
    {
      status := newStatus;
    }
  }
}
