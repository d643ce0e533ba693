/**
 * The parameters dictionary of a project and the parameter panel that edits it.
 *
 * `Encode` is what `update_parameters` writes into the dictionary from the
 * panel's widgets; `DecodeInto` is what `update_ui` writes into the widgets from
 * a dictionary. Both visit the same 57 keys, in different orders.
 */
module Settings {
  import opened Wrappers
  import opened Paths
  import opened InputFiles

  /** A JSON value of the parameters dictionary. `Files` is the `input_files` list. */
  datatype Value =
    | Int(i: int)
    | Real(r: real)
    | Str(s: string)
    | Bool(b: bool)
    | IntList(xs: seq<int>)
    | Files(entries: seq<Entry>)

  type Params = map<string, Value>

  /** Python truthiness, as in `if params[key]:`. */
  predicate Truthy(v: Value) {
    match v
    case Int(i) => i != 0
    case Real(r) => r != 0.0
    case Str(s) => s != ""
    case Bool(b) => b
    case IntList(xs) => xs != []
    case Files(es) => es != []
  }

  const InstrumentKey := "instrument_type"
  const ChargeKey := "feature_detection_charge_states"
  const FillAlphaKey := "qc_plot_fill_alpha"
  const Dynamic := "dynamic"

  /** The items of the instrument-type combo box. */
  const InstrumentTypes: seq<string> := ["orbitrap", "tof", "ft-icr", "quadrupole"]

  /** The keys whose widget is a check box. */
  const CheckKeys: set<string> := {
    "ident_max_rank_only", "ident_require_threshold", "ident_ignore_decoy",
    "qc_plot_per_file", "qc_plot_fig_legend", "quant_features_charge_state_filter",
    "quant_consensus", "quant_save_all_annotations",
    "quant_proteins_remove_subset_proteins", "quant_proteins_ignore_ambiguous_peptides"
  }

  /** Instrument, resolution, sampling and smoothing. */
  const RawDataKeys: seq<string> := [
    "instrument_type", "resolution_ms1", "resolution_msn", "reference_mz", "avg_fwhm_rt",
    "num_samples_mz", "num_samples_rt", "smoothing_coefficient_mz", "smoothing_coefficient_rt"
  ]

  /** Retention-time warping and meta-matching. */
  const AlignmentKeys: seq<string> := [
    "warp2d_slack", "warp2d_window_size", "warp2d_num_points", "warp2d_rt_expand_factor",
    "warp2d_peaks_per_window", "metamatch_fraction", "metamatch_n_sig_mz", "metamatch_n_sig_rt"
  ]

  /** Ranges, polarity, peak detection and linking. */
  const FeatureKeys: seq<string> := [
    "min_mz", "max_mz", "min_rt", "max_rt", "polarity", "max_peaks", "link_n_sig_mz", "link_n_sig_rt"
  ]

  /** Identification check boxes. */
  const IdentKeys: seq<string> := ["ident_max_rank_only", "ident_require_threshold", "ident_ignore_decoy"]

  /** Similarity and quality-control plots. */
  const QualityKeys: seq<string> := [
    "similarity_num_peaks", "qc_plot_palette", "qc_plot_extension", "qc_plot_fill_alpha",
    "qc_plot_line_alpha", "qc_plot_scatter_alpha", "qc_plot_scatter_size", "qc_plot_min_dynamic_alpha",
    "qc_plot_per_file", "qc_plot_line_style", "qc_plot_dpi", "qc_plot_font_family", "qc_plot_font_size",
    "qc_plot_fig_size_x", "qc_plot_fig_size_y", "qc_plot_fig_legend", "qc_plot_mz_vs_sigma_mz_max_peaks"
  ]

  /** Quantification. */
  const QuantKeys: seq<string> := [
    "quant_isotopes", "quant_features", "quant_features_charge_state_filter", "quant_ident_linkage",
    "quant_consensus", "quant_consensus_min_ident", "quant_save_all_annotations",
    "quant_proteins_min_peptides", "quant_proteins_remove_subset_proteins",
    "quant_proteins_ignore_ambiguous_peptides", "quant_proteins_quant_type"
  ]

  /** The keys both directions visit first, in the same order. */
  const LeadKeys: seq<string> := RawDataKeys + AlignmentKeys + FeatureKeys

  /** The keys in the order `update_parameters` writes them. */
  const EncodeOrder: seq<string> := LeadKeys + [ChargeKey] + IdentKeys + QualityKeys + QuantKeys

  /** The keys in the order `update_ui` reads them: the identification keys come last. */
  const DecodeOrder: seq<string> := LeadKeys + [ChargeKey] + QualityKeys + QuantKeys + IdentKeys

  /** The keys the panel owns. */
  const PanelKeys: set<string> := set k | k in EncodeOrder

  /** Keys held by a spin box or a combo box other than the instrument type. */
  const PlainKeys: set<string> := PanelKeys - CheckKeys - {InstrumentKey, ChargeKey, FillAlphaKey}

  /** The writer and the reader visit the same keys. */
  lemma DecodeVisitsEncodedKeys()
    ensures (set k | k in DecodeOrder) == PanelKeys
  {
  }

  /** The three keys with their own encoding are panel keys, distinct, and none of them is a check box. */
  lemma SpecialKeys()
    ensures InstrumentKey in PanelKeys && ChargeKey in PanelKeys && FillAlphaKey in PanelKeys
    ensures CheckKeys <= PanelKeys
    ensures InstrumentKey !in CheckKeys && ChargeKey !in CheckKeys && FillAlphaKey !in CheckKeys
  {
    SpecialKeysArePanelKeys();
    CheckKeysArePanelKeys();
    SpecialKeysAreNotChecks();
  }

  lemma SpecialKeysArePanelKeys()
    ensures InstrumentKey in PanelKeys && ChargeKey in PanelKeys && FillAlphaKey in PanelKeys
  {
    assert RawDataKeys[0] == InstrumentKey && QualityKeys[3] == FillAlphaKey;
    assert EncodeOrder[0] == InstrumentKey;
    assert EncodeOrder[|LeadKeys|] == ChargeKey;
    assert EncodeOrder[|LeadKeys| + 1 + |IdentKeys| + 3] == FillAlphaKey;
  }

  lemma CheckKeysArePanelKeys()
    ensures CheckKeys <= PanelKeys
  {
    var tail := IdentKeys + QualityKeys + QuantKeys;
    assert EncodeOrder == LeadKeys + [ChargeKey] + tail;
    assert forall k :: k in tail ==> k in EncodeOrder;
    assert tail[0] == "ident_max_rank_only" && tail[1] == "ident_require_threshold" && tail[2] == "ident_ignore_decoy";
    assert tail[11] == "qc_plot_per_file" && tail[18] == "qc_plot_fig_legend";
    assert tail[22] == "quant_features_charge_state_filter" && tail[24] == "quant_consensus";
    assert tail[26] == "quant_save_all_annotations" && tail[28] == "quant_proteins_remove_subset_proteins";
    assert tail[29] == "quant_proteins_ignore_ambiguous_peptides";
  }

  lemma SpecialKeysAreNotChecks()
    ensures InstrumentKey !in CheckKeys && ChargeKey !in CheckKeys && FillAlphaKey !in CheckKeys
  {
    assert InstrumentKey[0] != "quant_consensus"[0];
    assert FillAlphaKey[0] != "ident_ignore_decoy"[0];
    assert FillAlphaKey[10] != "qc_plot_fig_legend"[10];
  }

  /** `LARGE`, the bound of most spin boxes. */
  const Large := 1000000000

  /** The range of a C `int`, which PyQt requires of an integer argument. */
  const CIntMin := -0x8000_0000
  const CIntMax := 0x7fff_ffff

  /** The range of the two charge-state spin boxes and of the fill-alpha spin box. */
  const ChargeLo := 1
  const ChargeHi := Large
  const AlphaLo := 0.0
  const AlphaHi := 1.0

  /** What kind of widget holds a key: a `QSpinBox` or `QDoubleSpinBox` with its range, or a `QComboBox` with its items. */
  datatype Kind =
    | IntBox(lo: int, hi: int)
    | RealBox(rlo: real, rhi: real)
    | Combo(items: seq<string>)

  /** A spin box or combo box: its kind and what it shows (`Int`, `Real` or `Str`). */
  datatype Widget = Widget(kind: Kind, value: Value)

  /** The widgets other than the instrument type, the charge range and the fill alpha, as the panel builds them. */
  const Layout: map<string, Kind> := map[
    "resolution_ms1" := IntBox(-Large, Large),
    "resolution_msn" := IntBox(-Large, Large),
    "reference_mz" := IntBox(-Large, Large),
    "avg_fwhm_rt" := IntBox(-Large, Large),
    "num_samples_mz" := IntBox(-Large, Large),
    "num_samples_rt" := IntBox(-Large, Large),
    "smoothing_coefficient_mz" := RealBox(-Large as real, Large as real),
    "smoothing_coefficient_rt" := RealBox(-Large as real, Large as real),
    "warp2d_slack" := IntBox(-Large, Large),
    "warp2d_window_size" := IntBox(-Large, Large),
    "warp2d_num_points" := IntBox(-Large, Large),
    "warp2d_rt_expand_factor" := RealBox(-Large as real, Large as real),
    "warp2d_peaks_per_window" := IntBox(-Large, Large),
    "metamatch_fraction" := RealBox(-Large as real, Large as real),
    "metamatch_n_sig_mz" := RealBox(-Large as real, Large as real),
    "metamatch_n_sig_rt" := RealBox(-Large as real, Large as real),
    "min_mz" := RealBox(0.0, Large as real),
    "max_mz" := RealBox(0.0, Large as real),
    "min_rt" := RealBox(0.0, Large as real),
    "max_rt" := RealBox(0.0, Large as real),
    "polarity" := Combo(["positive", "negative", "both"]),
    "max_peaks" := IntBox(-Large, Large),
    "link_n_sig_mz" := RealBox(-Large as real, Large as real),
    "link_n_sig_rt" := RealBox(-Large as real, Large as real),
    "similarity_num_peaks" := IntBox(-Large, Large),
    "qc_plot_palette" := Combo(["husl", "crest", "Spectral", "flare", "mako"]),
    "qc_plot_extension" := Combo(["png", "pdf", "eps"]),
    "qc_plot_line_alpha" := RealBox(0.0, 1.0),
    "qc_plot_scatter_alpha" := RealBox(0.0, 1.0),
    "qc_plot_scatter_size" := RealBox(0.1, 10.0),
    "qc_plot_min_dynamic_alpha" := RealBox(0.1, 10.0),
    "qc_plot_line_style" := Combo(["fill", "line"]),
    "qc_plot_dpi" := IntBox(1, 1000),
    "qc_plot_font_family" := Combo(["sans-serif", "serif"]),
    "qc_plot_font_size" := RealBox(1.0, 15.0),
    "qc_plot_fig_size_x" := RealBox(1.0, 15.0),
    "qc_plot_fig_size_y" := RealBox(1.0, 15.0),
    "qc_plot_mz_vs_sigma_mz_max_peaks" := IntBox(10, Large),
    "quant_isotopes" := Combo(["height", "volume"]),
    "quant_features" := Combo(["monoisotopic_height", "monoisotopic_volume", "total_height", "total_volume", "max_height", "max_volume"]),
    "quant_ident_linkage" := Combo(["theoretical_mz", "msms_event"]),
    "quant_consensus_min_ident" := IntBox(-Large, Large),
    "quant_proteins_min_peptides" := IntBox(1, 50),
    "quant_proteins_quant_type" := Combo(["razor", "unique", "all"])
  ]

  /** A widget shows a value of its own type, within its range or among its items. */
  predicate Fits(w: Widget) {
    match w.kind
    case IntBox(lo, hi) => w.value.Int? && CIntMin <= lo <= w.value.i <= hi <= CIntMax
    case RealBox(lo, hi) => w.value.Real? && lo <= w.value.r <= hi
    case Combo(items) => w.value.Str? && w.value.s in items
  }

  /** The state of the parameter widgets. */
  datatype Panel = Panel(
    instrument: string,          // instrument-type combo text
    plain: map<string, Widget>,  // spin boxes and the other combo boxes
    checks: map<string, bool>,   // check boxes
    chargeMin: int,              // feature-detection min charge spin box
    chargeMax: int,              // feature-detection max charge spin box
    fillAlpha: real)             // fill-alpha spin box; 0.0 stands for "dynamic"

  /** Every spin box shows a value in its range and every combo box one of its items. */
  predicate InRange(p: Panel) {
    && (forall k :: k in p.plain ==> Fits(p.plain[k]))
    && ChargeLo <= p.chargeMin <= ChargeHi && ChargeLo <= p.chargeMax <= ChargeHi
    && AlphaLo <= p.fillAlpha <= AlphaHi
  }

  /** Each plain widget has the kind the panel builds for its key. */
  predicate Built(p: Panel) {
    forall k :: k in p.plain ==> k in Layout && p.plain[k].kind == Layout[k]
  }

  /** Every widget is present and shows a value it can hold. */
  predicate WellFormed(p: Panel) {
    && p.plain.Keys == PlainKeys && p.checks.Keys == CheckKeys && p.instrument in InstrumentTypes
    && InRange(p)
  }

  // ----- Charge states -----

  /** `list(range(lo, hi + 1))` reversed: the charge states from `hi` down to `lo`. */
  function ChargeStates(lo: int, hi: int): (r: seq<int>)
    ensures |r| == if lo <= hi then hi - lo + 1 else 0
    ensures forall i :: 0 <= i < |r| ==> r[i] == hi - i
    decreases hi - lo
  {
    if hi < lo then [] else [hi] + ChargeStates(lo, hi - 1)
  }

  /** Python's `min` of a non-empty list. */
  function SeqMin(xs: seq<int>): (m: int)
    requires xs != []
    ensures m in xs && forall x :: x in xs ==> m <= x
  {
    if |xs| == 1 then xs[0]
    else
      var rest := SeqMin(xs[1..]);
      assert forall x :: x in xs ==> x == xs[0] || x in xs[1..];
      if xs[0] <= rest then xs[0] else rest
  }

  /** Python's `max` of a non-empty list. */
  function SeqMax(xs: seq<int>): (m: int)
    requires xs != []
    ensures m in xs && forall x :: x in xs ==> x <= m
  {
    if |xs| == 1 then xs[0]
    else
      var rest := SeqMax(xs[1..]);
      assert forall x :: x in xs ==> x == xs[0] || x in xs[1..];
      if xs[0] >= rest then xs[0] else rest
  }

  /** The bounds of a stored charge range read back as the same two spin-box values. */
  lemma ChargeRoundTrip(lo: int, hi: int)
    requires lo <= hi
    ensures ChargeStates(lo, hi) != []
    ensures SeqMin(ChargeStates(lo, hi)) == lo && SeqMax(ChargeStates(lo, hi)) == hi
  {
    var r := ChargeStates(lo, hi);
    assert r[hi - lo] == lo && r[0] == hi;
    assert lo in r && hi in r;
    forall x | x in r
      ensures lo <= x <= hi
    {
      var i :| 0 <= i < |r| && r[i] == x;
    }
  }

  /** A min charge above the max charge is stored as an empty list. */
  lemma InvertedChargeRangeIsEmpty(lo: int, hi: int)
    requires lo > hi
    ensures ChargeStates(lo, hi) == []
  {
  }

  /** The charge list is strictly decreasing. */
  lemma ChargeStatesDescending(lo: int, hi: int, i: int, j: int)
    requires 0 <= i < j < |ChargeStates(lo, hi)|
    ensures ChargeStates(lo, hi)[i] > ChargeStates(lo, hi)[j]
  {
  }

  // ----- Fill alpha -----

  /** A zero fill alpha is written as the sentinel string "dynamic". */
  function EncodeAlpha(a: real): (v: Value)
    ensures v.Str? <==> a == 0.0
    ensures v.Str? ==> v.s == Dynamic
    ensures v.Real? ==> v.r == a
  {
    if a == 0.0 then Str(Dynamic) else Real(a)
  }

  /**
   * `update_ui`'s reading of the fill alpha, before the spin box bounds it: the
   * sentinel is 0.0, a number is itself, and anything else is refused.
   */
  function DecodeAlpha(v: Value): (r: Option<real>)
    ensures v == Str(Dynamic) ==> r == Some(0.0)
    ensures v.Real? ==> r == Some(v.r)
    ensures r.None? <==> !(v == Str(Dynamic) || AsReal(v).Some?)
  {
    if v == Str(Dynamic) then Some(0.0) else AsReal(v)
  }

  lemma AlphaRoundTrip(a: real)
    ensures DecodeAlpha(EncodeAlpha(a)) == Some(a)
  {
  }

  // ----- Encoding (update_parameters) -----

  /** `str.lower` leaves the combo box's items unchanged. */
  lemma InstrumentTypesAreLower(t: string)
    requires t in InstrumentTypes
    ensures Lower(t) == t
  {
    assert forall i :: 0 <= i < |t| ==> !('A' <= t[i] <= 'Z');
    assert forall i :: 0 <= i < |t| ==> Lower(t)[i] == t[i];
  }

  /** The three keys with their own encoding are distinct and have no plain or check-box widget. */
  predicate Shape(p: Panel) {
    && InstrumentKey !in p.plain && ChargeKey !in p.plain && FillAlphaKey !in p.plain
    && InstrumentKey !in p.checks && ChargeKey !in p.checks && FillAlphaKey !in p.checks
    && p.plain.Keys !! p.checks.Keys
  }

  /** The keys a panel writes: the three special ones and one per plain or check-box widget. */
  function Keys(p: Panel): set<string> {
    {InstrumentKey, ChargeKey, FillAlphaKey} + p.checks.Keys + p.plain.Keys
  }

  lemma WellFormedShape(p: Panel)
    requires WellFormed(p)
    ensures Shape(p) && Keys(p) == PanelKeys
  {
    SpecialKeys();
  }

  function EncodeKey(p: Panel, k: string): Value
    requires k in Keys(p)
  {
    if k == InstrumentKey then Str(Lower(p.instrument))
    else if k == ChargeKey then IntList(ChargeStates(p.chargeMin, p.chargeMax))
    else if k == FillAlphaKey then EncodeAlpha(p.fillAlpha)
    else if k in p.checks then Bool(p.checks[k])
    else p.plain[k].value
  }

  /** The entries `update_parameters` writes from the panel, one per widget. */
  function Encode(p: Panel): (m: Params)
    requires Shape(p)
    ensures m.Keys == Keys(p)
    ensures forall k :: k in p.checks ==> m[k] == Bool(p.checks[k])
    ensures forall k :: k in p.plain ==> m[k] == p.plain[k].value
    ensures m[InstrumentKey] == Str(Lower(p.instrument))
    ensures m[ChargeKey].IntList? && (m[ChargeKey].xs == [] <==> p.chargeMin > p.chargeMax)
    ensures m[FillAlphaKey] == Str(Dynamic) <==> p.fillAlpha == 0.0
  {
    map k | k in Keys(p) :: EncodeKey(p, k)
  }

  /** A well-formed panel writes exactly the 57 panel keys, and the instrument type as one of the combo's items. */
  lemma EncodeWritesPanelKeys(p: Panel)
    requires WellFormed(p)
    ensures Shape(p) && Encode(p).Keys == PanelKeys
    ensures Encode(p)[InstrumentKey].s in InstrumentTypes
  {
    WellFormedShape(p);
    InstrumentTypesAreLower(p.instrument);
  }

  /** `update_parameters` applied to a dictionary: the panel's keys are overwritten, every other key is kept. */
  function Store(params: Params, p: Panel): (r: Params)
    requires Shape(p)
    ensures r.Keys == params.Keys + Keys(p)
    ensures forall k :: k in params && k !in Keys(p) ==> r[k] == params[k]
    ensures forall k :: k in Keys(p) ==> r[k] == Encode(p)[k]
  {
    params + Encode(p)
  }

  // ----- Decoding (update_ui) -----

  /** The exception `update_ui` stops at. */
  datatype Error = KeyError(key: string) | TypeError(key: string) | ValueError(key: string) | OverflowError(key: string)

  /** A C `int` argument as PyQt takes it: a Python `int`, `bool` included. */
  function AsInt(v: Value): Option<int> {
    match v
    case Int(i) => Some(i)
    case Bool(b) => Some(if b then 1 else 0)
    case _ => None
  }

  /** A C `double` argument as PyQt takes it: a Python `float` or `int`, `bool` included. */
  function AsReal(v: Value): Option<real> {
    match v
    case Real(r) => Some(r)
    case Int(i) => Some(i as real)
    case Bool(b) => Some(if b then 1.0 else 0.0)
    case _ => None
  }

  /** Qt's `qBound(lo, x, hi)`, which `setValue` applies to the value it is given. */
  function Bound(lo: int, x: int, hi: int): (r: int)
    requires lo <= hi
    ensures lo <= r <= hi
    ensures lo <= x <= hi ==> r == x
    ensures x < lo ==> r == lo
    ensures x > hi ==> r == hi
  {
    if x < lo then lo else if x > hi then hi else x
  }

  function BoundReal(lo: real, x: real, hi: real): (r: real)
    requires lo <= hi
    ensures lo <= r <= hi
    ensures lo <= x <= hi ==> r == x
    ensures x < lo ==> r == lo
    ensures x > hi ==> r == hi
  {
    if x < lo then lo else if x > hi then hi else x
  }

  /** What one setter call did to a widget: it now shows `w`, or it raised `e`. */
  datatype Taken = Shown(w: Widget) | Raised(e: Error)

  /**
   * `setValue(v)` on a spin box, `setCurrentText(v)` on a combo box, for the
   * widget of key `k`: a value of the wrong type raises `TypeError`, an integer
   * outside a C `int` raises `OverflowError`, a number is bounded to the spin
   * box's range, and a text that is not one of the combo box's items is ignored.
   */
  function Take(k: string, w: Widget, v: Value): (r: Taken)
    ensures r.Shown? ==> r.w.kind == w.kind && (Fits(w) ==> Fits(r.w))
    ensures r.Raised? ==> r.e == TypeError(k) || r.e == OverflowError(k)
    ensures w.kind.Combo? ==> (r.Raised? <==> !v.Str?)
    ensures w.kind.Combo? && v.Str? && v.s !in w.kind.items ==> r == Shown(w)
    ensures !w.kind.Combo? && v.Str? ==> r == Raised(TypeError(k))
  {
    match w.kind
    case IntBox(lo, hi) =>
      (match AsInt(v)
       case None => Raised(TypeError(k))
       case Some(i) =>
         if i < CIntMin || i > CIntMax then Raised(OverflowError(k))
         else if lo <= hi then Shown(w.(value := Int(Bound(lo, i, hi))))
         else Shown(w.(value := Int(lo))))   // `setRange` leaves an inverted range holding only `lo`
    case RealBox(lo, hi) =>
      (match AsReal(v)
       case None => Raised(TypeError(k))
       case Some(x) => if lo <= hi then Shown(w.(value := Real(BoundReal(lo, x, hi)))) else Shown(w.(value := Real(lo))))
    case Combo(items) =>
      if !v.Str? then Raised(TypeError(k))
      else if v.s in items then Shown(w.(value := v))
      else Shown(w)
  }

  /** A value the widget could show, given to a widget of the same kind, is shown as it is. */
  lemma TakeShown(k: string, w: Widget, u: Widget)
    requires u.kind == w.kind && Fits(u)
    ensures Take(k, w, u.value) == Shown(u)
  {
  }

  /** Python's `min` or `max` of an empty sequence: an empty list or an empty string. */
  predicate EmptySequence(v: Value) {
    v == IntList([]) || v == Str("") || v == Files([])
  }

  /** One statement of `update_ui`: the panel it leaves, and whether it raised. */
  datatype Step = Set(panel: Panel) | Fail(panel: Panel, error: Error)

  /**
   * The charge-state statements: `setValue(min(v))` on the min spin box, then
   * `setValue(max(v))` on the max spin box. Only a list of integers gets past
   * `min`; the max spin box may still refuse after the min spin box changed.
   */
  function DecodeCharge(v: Value, p: Panel): Step {
    if EmptySequence(v) then Fail(p, ValueError(ChargeKey))
    else if !v.IntList? then Fail(p, TypeError(ChargeKey))
    else
      var lo := SeqMin(v.xs);
      if lo < CIntMin || lo > CIntMax then Fail(p, OverflowError(ChargeKey))
      else
        var p1 := p.(chargeMin := Bound(ChargeLo, lo, ChargeHi));
        var hi := SeqMax(v.xs);
        if hi < CIntMin || hi > CIntMax then Fail(p1, OverflowError(ChargeKey))
        else Set(p1.(chargeMax := Bound(ChargeLo, hi, ChargeHi)))
  }

  /** The effect on the panel of the one statement of `update_ui` that reads `k`. */
  function DecodeKey(params: Params, k: string, p: Panel): Step {
    if k !in params then Fail(p, KeyError(k))
    else
      var v := params[k];
      if k == InstrumentKey then
        (if !v.Str? then Fail(p, TypeError(k))
         else if v.s in InstrumentTypes then Set(p.(instrument := v.s))
         else Set(p))
      else if k == ChargeKey then DecodeCharge(v, p)
      else if k == FillAlphaKey then
        (match DecodeAlpha(v)
         case Some(a) => Set(p.(fillAlpha := BoundReal(AlphaLo, a, AlphaHi)))
         case None => Fail(p, TypeError(k)))
      else if k in p.checks then Set(p.(checks := p.checks[k := Truthy(v)]))
      else if k in p.plain then
        (match Take(k, p.plain[k], v)
         case Shown(w) => Set(p.(plain := p.plain[k := w]))
         case Raised(e) => Fail(p, e))
      else Set(p)
  }

  /** A text that is none of a combo box's items leaves the panel as it was, without an exception. */
  lemma UnknownComboTextIsIgnored(params: Params, k: string, p: Panel)
    requires Shape(p) && k in p.plain && p.plain[k].kind.Combo? && k !in p.checks
    requires k in params && params[k].Str? && params[k].s !in p.plain[k].kind.items
    ensures DecodeKey(params, k, p) == Set(p)
  {
    assert p.plain[k := p.plain[k]] == p.plain;
  }

  /** A spin box given a text raises `TypeError` and the panel stays as it was. */
  lemma TextInSpinBoxRaises(params: Params, k: string, p: Panel)
    requires Shape(p) && k in p.plain && !p.plain[k].kind.Combo? && k !in p.checks
    requires k in params && params[k].Str?
    ensures DecodeKey(params, k, p) == Fail(p, TypeError(k))
  {
  }

  /** The protein quantification combo box ignores "median", which is none of its items. */
  lemma QuantTypeMedianIsIgnored(params: Params, p: Panel)
    requires WellFormed(p) && Built(p) && Shape(p)
    requires "quant_proteins_quant_type" in params && params["quant_proteins_quant_type"] == Str("median")
    ensures DecodeKey(params, "quant_proteins_quant_type", p) == Set(p)
  {
    assert "quant_proteins_quant_type" in PlainKeys by { PlainKeyQuantType(); }
    assert p.plain["quant_proteins_quant_type"].kind == Combo(["razor", "unique", "all"]);
    UnknownComboTextIsIgnored(params, "quant_proteins_quant_type", p);
  }

  /** A text for the minimum number of peptides stops `update_ui` with `TypeError`. */
  lemma MinPeptidesTextRaises(params: Params, p: Panel, s: string)
    requires WellFormed(p) && Built(p) && Shape(p)
    requires "quant_proteins_min_peptides" in params && params["quant_proteins_min_peptides"] == Str(s)
    ensures DecodeKey(params, "quant_proteins_min_peptides", p) == Fail(p, TypeError("quant_proteins_min_peptides"))
  {
    assert "quant_proteins_min_peptides" in PlainKeys by { PlainKeyMinPeptides(); }
    assert p.plain["quant_proteins_min_peptides"].kind == IntBox(1, 50);
    TextInSpinBoxRaises(params, "quant_proteins_min_peptides", p);
  }

  /** The DPI spin box runs from 1 to 1000: a stored 5000 shows as 1000. */
  lemma DpiIsBounded(params: Params, p: Panel)
    requires WellFormed(p) && Built(p) && Shape(p)
    requires "qc_plot_dpi" in params && params["qc_plot_dpi"] == Int(5000)
    ensures DecodeKey(params, "qc_plot_dpi", p) ==
      Set(p.(plain := p.plain["qc_plot_dpi" := Widget(IntBox(1, 1000), Int(1000))]))
  {
    assert "qc_plot_dpi" in PlainKeys by { PlainKeyDpi(); }
    assert p.plain["qc_plot_dpi"].kind == IntBox(1, 1000);
  }

  /** The charge spin boxes start at 1: a stored charge list `[0]` shows both bounds as 1. */
  lemma ChargeZeroShowsOne(p: Panel)
    ensures DecodeCharge(IntList([0]), p) == Set(p.(chargeMin := 1, chargeMax := 1))
  {
    assert SeqMin([0]) == 0 && SeqMax([0]) == 0;
  }

  /** An integer outside a C `int` given to a spin box raises `OverflowError`. */
  lemma LargeIntegerOverflows(k: string, w: Widget, i: int)
    requires w.kind.IntBox? && (i < CIntMin || i > CIntMax)
    ensures Take(k, w, Int(i)) == Raised(OverflowError(k))
  {
  }

  lemma PlainKeyQuantType()
    ensures "quant_proteins_quant_type" in PlainKeys
  {
    assert QuantKeys[10] == "quant_proteins_quant_type";
    assert EncodeOrder[|LeadKeys| + 1 + |IdentKeys| + |QualityKeys| + 10] == "quant_proteins_quant_type";
  }

  lemma PlainKeyMinPeptides()
    ensures "quant_proteins_min_peptides" in PlainKeys
  {
    assert QuantKeys[7] == "quant_proteins_min_peptides";
    assert EncodeOrder[|LeadKeys| + 1 + |IdentKeys| + |QualityKeys| + 7] == "quant_proteins_min_peptides";
  }

  lemma PlainKeyDpi()
    ensures "qc_plot_dpi" in PlainKeys
  {
    assert QualityKeys[10] == "qc_plot_dpi";
    assert EncodeOrder[|LeadKeys| + 1 + |IdentKeys| + 10] == "qc_plot_dpi";
  }

  /** The panel after `update_ui` has read the keys `ks` in order, and the exception that stopped it, if any. */
  datatype Loaded = Loaded(panel: Panel, error: Option<Error>)

  function DecodeFrom(params: Params, ks: seq<string>, p: Panel): Loaded {
    if ks == [] then Loaded(p, None)
    else
      match DecodeKey(params, ks[0], p)
      case Fail(q, e) => Loaded(q, Some(e))
      case Set(q) => DecodeFrom(params, ks[1..], q)
  }

  /**
   * Reading to the end needs every key read, and a `KeyError` names a key
   * that was to be read and is missing.
   */
  lemma {:induction false} DecodeFromNeedsKeys(params: Params, ks: seq<string>, p: Panel)
    ensures var r := DecodeFrom(params, ks, p);
      (r.error.None? ==> forall k :: k in ks ==> k in params) &&
      (r.error.Some? && r.error.value.KeyError? ==> r.error.value.key in ks && r.error.value.key !in params)
  {
    if ks != [] {
      match DecodeKey(params, ks[0], p)
      case Fail(_, _) =>
      case Set(q) =>
        DecodeFromNeedsKeys(params, ks[1..], q);
        assert forall k :: k in ks ==> k == ks[0] || k in ks[1..];
    }
  }

  /** `update_ui`'s parameter section: fill the panel from a dictionary. */
  function DecodeInto(params: Params, p: Panel): Loaded {
    DecodeFrom(params, DecodeOrder, p)
  }

  /** Reading to the end needs every one of the panel's keys. */
  lemma DecodeIntoNeedsAllKeys(params: Params, p: Panel)
    ensures DecodeInto(params, p).error.None? ==> PanelKeys <= params.Keys
  {
    DecodeVisitsEncodedKeys();
    DecodeFromNeedsKeys(params, DecodeOrder, p);
  }

  /** A dictionary missing one of the panel's keys is never read to the end. */
  lemma MissingKeyFails(params: Params, p: Panel, k: string)
    requires k in PanelKeys && k !in params
    ensures DecodeInto(params, p).error.Some?
  {
    DecodeIntoNeedsAllKeys(params, p);
  }

  // ----- Round trip -----

  /** Two panels with the same widgets, of the same kinds. */
  predicate SameWidgets(p: Panel, q: Panel) {
    && p.plain.Keys == q.plain.Keys && p.checks.Keys == q.checks.Keys
    && forall k :: k in p.plain ==> p.plain[k].kind == q.plain[k].kind
  }

  /** Any two complete panels built as the panel builds them have the same widgets. */
  lemma BuiltSameWidgets(p: Panel, q: Panel)
    requires WellFormed(p) && WellFormed(q) && Built(p) && Built(q)
    ensures SameWidgets(p, q)
  {
  }

  /** `q` with the widgets of the keys in `s` taken from `p`. */
  function Overlay(q: Panel, p: Panel, s: set<string>): (r: Panel)
    requires SameWidgets(p, q)
    ensures SameWidgets(r, q)
  {
    Panel(
      if InstrumentKey in s then p.instrument else q.instrument,
      map k | k in q.plain :: if k in s then p.plain[k] else q.plain[k],
      map k | k in q.checks :: if k in s then p.checks[k] else q.checks[k],
      if ChargeKey in s then p.chargeMin else q.chargeMin,
      if ChargeKey in s then p.chargeMax else q.chargeMax,
      if FillAlphaKey in s then p.fillAlpha else q.fillAlpha)
  }

  /** Taking one widget from `p`. */
  lemma OverlayOne(q: Panel, p: Panel, k: string)
    requires Shape(p) && SameWidgets(p, q)
    ensures k == InstrumentKey ==> Overlay(q, p, {k}) == q.(instrument := p.instrument)
    ensures k == ChargeKey ==> Overlay(q, p, {k}) == q.(chargeMin := p.chargeMin, chargeMax := p.chargeMax)
    ensures k == FillAlphaKey ==> Overlay(q, p, {k}) == q.(fillAlpha := p.fillAlpha)
    ensures k in p.checks ==> Overlay(q, p, {k}) == q.(checks := q.checks[k := p.checks[k]])
    ensures k in p.plain ==> Overlay(q, p, {k}) == q.(plain := q.plain[k := p.plain[k]])
  {
    var r := Overlay(q, p, {k});
    if k in p.checks {
      assert r.plain == q.plain;
      assert r.checks == q.checks[k := p.checks[k]];
    } else if k in p.plain {
      assert r.plain == q.plain[k := p.plain[k]];
      assert r.checks == q.checks;
    } else {
      assert r.plain == q.plain;
      assert r.checks == q.checks;
    }
  }

  lemma DecodeEncodedKey(p: Panel, q: Panel, k: string)
    requires Shape(p) && SameWidgets(p, q) && InRange(p) && p.instrument in InstrumentTypes && k in Keys(p)
    requires k == ChargeKey ==> p.chargeMin <= p.chargeMax
    ensures DecodeKey(Encode(p), k, q) == Set(Overlay(q, p, {k}))
  {
    OverlayOne(q, p, k);
    if k == InstrumentKey {
      DecodeEncodedInstrument(p, q);
    } else if k == ChargeKey {
      DecodeEncodedCharge(p, q);
    } else if k == FillAlphaKey {
      DecodeEncodedAlpha(p, q);
    } else if k in p.checks {
      DecodeEncodedCheck(p, q, k);
    } else {
      DecodeEncodedPlain(p, q, k);
    }
  }

  lemma DecodeEncodedInstrument(p: Panel, q: Panel)
    requires Shape(p) && p.instrument in InstrumentTypes
    ensures DecodeKey(Encode(p), InstrumentKey, q) == Set(q.(instrument := p.instrument))
  {
    InstrumentTypesAreLower(p.instrument);
    assert Encode(p)[InstrumentKey] == Str(p.instrument);
  }

  lemma DecodeEncodedCharge(p: Panel, q: Panel)
    requires Shape(p) && InRange(p) && p.chargeMin <= p.chargeMax
    ensures DecodeKey(Encode(p), ChargeKey, q) == Set(q.(chargeMin := p.chargeMin, chargeMax := p.chargeMax))
  {
    assert Encode(p)[ChargeKey] == IntList(ChargeStates(p.chargeMin, p.chargeMax));
    DecodeChargeOfRange(p.chargeMin, p.chargeMax, q);
  }

  /** A charge list the writer made from a range within the spin boxes' range reads back as that range. */
  lemma DecodeChargeOfRange(lo: int, hi: int, q: Panel)
    requires ChargeLo <= lo <= hi <= ChargeHi
    ensures DecodeCharge(IntList(ChargeStates(lo, hi)), q) == Set(q.(chargeMin := lo, chargeMax := hi))
  {
    var xs := ChargeStates(lo, hi);
    ChargeRoundTrip(lo, hi);
    assert !EmptySequence(IntList(xs));
    assert Bound(ChargeLo, lo, ChargeHi) == lo && Bound(ChargeLo, hi, ChargeHi) == hi;
  }

  lemma DecodeEncodedAlpha(p: Panel, q: Panel)
    requires Shape(p) && InRange(p)
    ensures DecodeKey(Encode(p), FillAlphaKey, q) == Set(q.(fillAlpha := p.fillAlpha))
  {
    AlphaRoundTrip(p.fillAlpha);
    assert Encode(p)[FillAlphaKey] == EncodeAlpha(p.fillAlpha);
  }

  lemma DecodeEncodedCheck(p: Panel, q: Panel, k: string)
    requires Shape(p) && SameWidgets(p, q) && k in p.checks
    ensures DecodeKey(Encode(p), k, q) == Set(q.(checks := q.checks[k := p.checks[k]]))
  {
    assert Encode(p)[k] == Bool(p.checks[k]);
  }

  lemma DecodeEncodedPlain(p: Panel, q: Panel, k: string)
    requires Shape(p) && SameWidgets(p, q) && k in p.plain && Fits(p.plain[k])
    ensures DecodeKey(Encode(p), k, q) == Set(q.(plain := q.plain[k := p.plain[k]]))
  {
    assert k !in p.checks;
    assert Encode(p)[k] == p.plain[k].value;
    TakeShown(k, q.plain[k], p.plain[k]);
  }

  lemma OverlayTwice(q: Panel, p: Panel, k: string, s: set<string>)
    requires SameWidgets(p, q)
    ensures Overlay(Overlay(q, p, {k}), p, s) == Overlay(q, p, {k} + s)
  {
    var a := Overlay(Overlay(q, p, {k}), p, s);
    var b := Overlay(q, p, {k} + s);
    assert a.plain == b.plain;
    assert a.checks == b.checks;
  }

  lemma OverlayNothing(q: Panel, p: Panel)
    requires SameWidgets(p, q)
    ensures Overlay(q, p, {}) == q
  {
    var o := Overlay(q, p, {});
    assert o.plain == q.plain;
    assert o.checks == q.checks;
  }

  lemma {:induction false} DecodeEncodedFrom(p: Panel, q: Panel, ks: seq<string>)
    requires Shape(p) && SameWidgets(p, q) && InRange(p) && p.instrument in InstrumentTypes
    requires forall k :: k in ks ==> k in Keys(p)
    requires ChargeKey in ks ==> p.chargeMin <= p.chargeMax
    ensures DecodeFrom(Encode(p), ks, q) == Loaded(Overlay(q, p, set k | k in ks), None)
    decreases |ks|
  {
    if ks == [] {
      OverlayNothing(q, p);
      assert (set k | k in ks) == {};
    } else {
      DecodeEncodedKey(p, q, ks[0]);
      var q' := Overlay(q, p, {ks[0]});
      DecodeEncodedFrom(p, q', ks[1..]);
      OverlayTwice(q, p, ks[0], set k | k in ks[1..]);
      KeySetCons(ks);
    }
  }

  lemma KeySetCons(ks: seq<string>)
    requires ks != []
    ensures (set k | k in ks) == {ks[0]} + (set k | k in ks[1..])
  {
    assert forall k :: k in ks <==> k == ks[0] || k in ks[1..];
  }

  lemma OverlayAll(q: Panel, p: Panel, s: set<string>)
    requires SameWidgets(p, q) && Keys(q) <= s
    ensures Overlay(q, p, s) == p
  {
    var o := Overlay(q, p, s);
    assert o.plain == p.plain;
    assert o.checks == p.checks;
  }

  /**
   * What the panel writes, read back into any panel, restores the panel
   * exactly, whenever the min charge does not exceed the max charge.
   */
  lemma PanelRoundTrip(p: Panel, q: Panel)
    requires WellFormed(p) && WellFormed(q) && SameWidgets(p, q) && p.chargeMin <= p.chargeMax
    ensures DecodeInto(Encode(p), q) == Loaded(p, None)
  {
    DecodeVisitsEncodedKeys();
    WellFormedShape(p);
    WellFormedShape(q);
    DecodeEncodedFrom(p, q, DecodeOrder);
    OverlayAll(q, p, PanelKeys);
  }

  lemma LeadKeysPrecedeCharge()
    ensures forall k :: k in LeadKeys ==> k in PanelKeys
    ensures ChargeKey !in LeadKeys
  {
  }

  /** With the min charge above the max charge, the stored list is empty and reading it back fails at that key. */
  lemma InvertedChargeRangeFails(p: Panel, q: Panel)
    requires WellFormed(p) && WellFormed(q) && SameWidgets(p, q) && p.chargeMin > p.chargeMax
    ensures DecodeInto(Encode(p), q).error == Some(ValueError(ChargeKey))
  {
    var params := Encode(p);
    var upToCharge := LeadKeys + [ChargeKey];
    StopsAtCharge(p, q);
    DecodeAppend(params, upToCharge, QualityKeys, q);
    DecodeAppend(params, upToCharge + QualityKeys, QuantKeys, q);
    DecodeAppend(params, upToCharge + QualityKeys + QuantKeys, IdentKeys, q);
  }

  lemma StopsAtCharge(p: Panel, q: Panel)
    requires WellFormed(p) && WellFormed(q) && SameWidgets(p, q) && p.chargeMin > p.chargeMax
    ensures DecodeFrom(Encode(p), LeadKeys + [ChargeKey], q).error == Some(ValueError(ChargeKey))
  {
    WellFormedShape(p);
    LeadDecodesCleanly(p, q);
    DecodeAppend(Encode(p), LeadKeys, [ChargeKey], q);
  }

  lemma LeadDecodesCleanly(p: Panel, q: Panel)
    requires WellFormed(p) && WellFormed(q) && SameWidgets(p, q)
    ensures Shape(p) && DecodeFrom(Encode(p), LeadKeys, q).error.None?
  {
    WellFormedShape(p);
    WellFormedShape(q);
    LeadKeysPrecedeCharge();
    DecodeEncodedFrom(p, q, LeadKeys);
  }

  /** Reading `xs + ys` is reading `xs`, then `ys` from where that stopped. */
  lemma {:induction false} DecodeAppend(params: Params, xs: seq<string>, ys: seq<string>, q: Panel)
    ensures var a := DecodeFrom(params, xs, q);
      DecodeFrom(params, xs + ys, q) == if a.error.Some? then a else DecodeFrom(params, ys, a.panel)
  {
    if xs != [] {
      assert (xs + ys)[0] == xs[0] && (xs + ys)[1..] == xs[1..] + ys;
      match DecodeKey(params, xs[0], q)
      case Fail(_, _) =>
      case Set(q') => DecodeAppend(params, xs[1..], ys, q');
    } else {
      assert xs + ys == ys;
    }
  }

  // ----- Whole dictionaries -----

  /** Reading keys only looks at those keys: two dictionaries that agree on them read the same. */
  lemma {:induction false} DecodeFromAgrees(a: Params, b: Params, ks: seq<string>, q: Panel)
    requires forall k :: k in ks ==> (k in a <==> k in b) && (k in a ==> a[k] == b[k])
    ensures DecodeFrom(a, ks, q) == DecodeFrom(b, ks, q)
    decreases |ks|
  {
    if ks != [] {
      assert DecodeKey(a, ks[0], q) == DecodeKey(b, ks[0], q);
      match DecodeKey(a, ks[0], q)
      case Fail(_, _) =>
      case Set(q') => DecodeFromAgrees(a, b, ks[1..], q');
    }
  }

  /**
   * The writer then the reader, on a whole dictionary: whatever else the
   * dictionary holds, reading back what the panel stored restores the panel
   * and ends without an exception, whenever the min charge does not exceed
   * the max charge.
   */
  lemma StoreRoundTrip(params: Params, p: Panel, q: Panel)
    requires WellFormed(p) && WellFormed(q) && SameWidgets(p, q) && p.chargeMin <= p.chargeMax
    ensures Shape(p) && DecodeInto(Store(params, p), q) == Loaded(p, None)
  {
    WellFormedShape(p);
    DecodeVisitsEncodedKeys();
    DecodeFromAgrees(Store(params, p), Encode(p), DecodeOrder, q);
    PanelRoundTrip(p, q);
  }

  lemma DecodeKeyWellFormed(params: Params, k: string, p: Panel)
    requires WellFormed(p)
    ensures WellFormed(DecodeKey(params, k, p).panel)
  {
    if k in params && k != InstrumentKey {
      if k == ChargeKey {
        DecodeChargeInRange(params[k], p);
      } else if k != FillAlphaKey && k !in p.checks && k in p.plain {
        match Take(k, p.plain[k], params[k])
        case Shown(w) =>
          assert DecodeKey(params, k, p).panel == p.(plain := p.plain[k := w]);
        case Raised(_) =>
      }
    }
  }

  /** The charge statements leave both charge spin boxes within their range. */
  lemma DecodeChargeInRange(v: Value, p: Panel)
    requires ChargeLo <= p.chargeMin <= ChargeHi && ChargeLo <= p.chargeMax <= ChargeHi
    ensures var r := DecodeCharge(v, p).panel;
      r == p.(chargeMin := r.chargeMin, chargeMax := r.chargeMax) &&
      ChargeLo <= r.chargeMin <= ChargeHi && ChargeLo <= r.chargeMax <= ChargeHi
  {
  }

  /** One statement of `update_ui` keeps the panel's widget layout, whether or not it raises. */
  lemma DecodeKeyShape(params: Params, k: string, p: Panel)
    requires Shape(p)
    ensures Shape(DecodeKey(params, k, p).panel)
  {
  }

  /**
   * One more statement of `update_ui`, after the first `i` keys read cleanly:
   * either it raises and that ends the whole reading, or the first `i + 1`
   * keys read cleanly.
   */
  lemma DecodeIntoStep(params: Params, i: int, p0: Panel, p: Panel)
    requires 0 <= i < |DecodeOrder|
    requires DecodeFrom(params, DecodeOrder[..i], p0) == Loaded(p, None)
    ensures var step := DecodeKey(params, DecodeOrder[i], p);
      if step.Fail? then DecodeInto(params, p0) == Loaded(step.panel, Some(step.error))
      else DecodeFrom(params, DecodeOrder[..i + 1], p0) == Loaded(step.panel, None)
  {
    assert DecodeOrder[..i + 1] == DecodeOrder[..i] + [DecodeOrder[i]];
    DecodeAppend(params, DecodeOrder[..i], [DecodeOrder[i]], p0);
    if DecodeKey(params, DecodeOrder[i], p).Fail? {
      DecodeAppend(params, DecodeOrder[..i + 1], DecodeOrder[i + 1..], p0);
      assert DecodeOrder[..i + 1] + DecodeOrder[i + 1..] == DecodeOrder;
    }
  }

  /** Reading panel keys from any dictionary, even one that stops with an exception, leaves every widget in place. */
  lemma {:induction false} DecodeFromWellFormed(params: Params, ks: seq<string>, p: Panel)
    requires WellFormed(p) && forall k :: k in ks ==> k in PanelKeys
    ensures WellFormed(DecodeFrom(params, ks, p).panel)
    decreases |ks|
  {
    if ks != [] {
      DecodeKeyWellFormed(params, ks[0], p);
      match DecodeKey(params, ks[0], p)
      case Fail(_, _) =>
      case Set(q) => DecodeFromWellFormed(params, ks[1..], q);
    }
  }

  lemma DecodeIntoWellFormed(params: Params, p: Panel)
    requires WellFormed(p)
    ensures WellFormed(DecodeInto(params, p).panel)
  {
    DecodeVisitsEncodedKeys();
    DecodeFromWellFormed(params, DecodeOrder, p);
  }

  /** Reading any dictionary keeps the three special keys apart from the other widgets. */
  lemma {:induction false} DecodeFromShape(params: Params, ks: seq<string>, p: Panel)
    requires Shape(p)
    ensures Shape(DecodeFrom(params, ks, p).panel)
    decreases |ks|
  {
    if ks != [] {
      DecodeKeyShape(params, ks[0], p);
      match DecodeKey(params, ks[0], p)
      case Fail(_, _) =>
      case Set(q) => DecodeFromShape(params, ks[1..], q);
    }
  }

  /** Setting a key the panel does not own changes nothing about how the panel reads the dictionary. */
  lemma OtherKeyKeepsReading(params: Params, k: string, v: Value, q: Panel)
    requires k !in PanelKeys
    ensures DecodeInto(params[k := v], q) == DecodeInto(params, q)
  {
    DecodeVisitsEncodedKeys();
    DecodeFromAgrees(params[k := v], params, DecodeOrder, q);
  }
}
