/**
  The token-request pipeline of the payment-token `Handler`: form
  serialisation, module merging, legacy-method rewriting, method detection,
  request configuration and response normalisation, and the control flow of
  `createToken` up to the single transport call. The transport itself is not
  modelled: the request that would be sent is returned, and the transport's
  reply is a parameter.
 */
module TokenHandler {
  import opened Js

  // ---------------------------------------------------------------------------
  // Vocabularies

  /** Payment-card instrument fields. */
  const CardFields: set<string> := {"pan", "expMonth", "expYear", "cvv"}

  /** ACH (bank account) instrument fields. */
  const AchFields: set<string> := {"routingNumber", "accountNumber", "accountType"}

  /** The fields `serializeForm` places in `paymentInstrument`. */
  const InstrumentFields: seq<string> :=
    ["pan", "expMonth", "expYear", "cvv", "routingNumber", "accountNumber", "accountType"]

  /** `convertLegacyMethods`' table, in its key order: legacy name, current name. */
  const LegacyAliases: seq<(string, string)> := [("payment_card", "payment-card"), ("bank_account", "ach")]

  /** `detectMethod`'s table, in its key order: method, the fields that reveal it. */
  const MethodVocabularies: seq<(string, set<string>)> := [("payment-card", CardFields), ("ach", AchFields)]

  /** The form serialiser's list is exactly the two detection vocabularies. */
  lemma InstrumentFieldsAreVocabularies(name: string)
    ensures name in InstrumentFields <==> name in CardFields || name in AchFields
  {
  }

  // ---------------------------------------------------------------------------
  // Inputs and outputs

  /**
    An `input` control of a form: the value of its `data-rebilly` attribute
    (`None` when the attribute is missing) and its current value.
   */
  datatype Control = Control(rebilly: Option<string>, value: string)

  /** What `createToken` is given: an object literal or a form's controls in document order. */
  datatype Payload = Literal(props: Object) | Form(controls: seq<Control>)

  /**
    The configuration handed to the transport. `body` is the object that
    `JSON.stringify` serialises.
   */
  datatype RequestConfig = RequestConfig(
    httpMethod: string,
    body: Value,
    uri: Option<string>,
    json: bool,
    headers: map<string, Value>)

  /** The transport's response object. */
  datatype Response = Response(rawRequest: Value, statusCode: Value)

  /**
    What the transport passes to its completion callback: the message of its
    error, if there is one, the response and the body.
   */
  datatype Reply = Reply(error: Option<string>, response: Response, body: Value)

  /** The object the caller's callback receives. */
  datatype TokenResult = TokenResult(xhr: Value, status: Value, error: bool, data: Value, message: string)

  /** The two errors `createToken` throws before any transport call. */
  datatype TokenError = MissingAuthorization | MissingMethodAndInstrument {
    function Message(): string {
      match this
      case MissingAuthorization => "Missing Rebilly authorization value"
      case MissingMethodAndInstrument => "Missing method and payment instrument data"
    }
  }

  /** A request issued to the transport and the one result delivered to the callback. */
  datatype Exchange = Exchange(request: RequestConfig, delivered: TokenResult)

  // ---------------------------------------------------------------------------
  // Module merging

  /** No fragment after the `i`th has key `k`. */
  predicate LastWith(fs: seq<Object>, i: nat, k: string) {
    forall j :: i < j < |fs| ==> k !in fs[j]
  }

  /**
    The `reduce` of `processModules`: `{...result, ...value}` over the
    fragments from left to right, starting from `{}`.
   */
  function MergeAll(fs: seq<Object>): Object {
    if fs == [] then map[] else MergeAll(fs[..|fs| - 1]) + fs[|fs| - 1]
  }

  /** A key is in the merge exactly when some fragment has it. */
  lemma {:induction false} MergeAllKeys(fs: seq<Object>, k: string)
    ensures k in MergeAll(fs) <==> exists i :: 0 <= i < |fs| && k in fs[i]
  {
    if fs != [] {
      var n := |fs| - 1;
      var init := fs[..n];
      MergeAllKeys(init, k);
      if k in MergeAll(fs) && k !in fs[n] {
        var i :| 0 <= i < n && k in init[i];
        assert fs[i] == init[i];
      }
      if k !in MergeAll(fs) {
        forall i | 0 <= i < |fs| ensures k !in fs[i] {
          if i < n {
            assert init[i] == fs[i];
          }
        }
      }
    }
  }

  /** On a collision the value comes from the last fragment that has the key. */
  lemma {:induction false} MergeAllLastWins(fs: seq<Object>, i: nat, k: string)
    requires i < |fs| && k in fs[i] && LastWith(fs, i, k)
    ensures k in MergeAll(fs) && MergeAll(fs)[k] == fs[i][k]
  {
    var n := |fs| - 1;
    if i < n {
      var init := fs[..n];
      assert init[i] == fs[i];
      assert LastWith(init, i, k) by {
        forall j | i < j < |init| ensures k !in init[j] {
          assert init[j] == fs[j];
        }
      }
      MergeAllLastWins(init, i, k);
    }
  }

  /** Both merge properties, for every key. */
  lemma MergeAllSpec(fs: seq<Object>)
    ensures forall k :: k in MergeAll(fs) <==> exists i :: 0 <= i < |fs| && k in fs[i]
    ensures forall i: nat, k :: i < |fs| && k in fs[i] && LastWith(fs, i, k) ==>
      k in MergeAll(fs) && MergeAll(fs)[k] == fs[i][k]
  {
    forall k ensures k in MergeAll(fs) <==> exists i :: 0 <= i < |fs| && k in fs[i] {
      MergeAllKeys(fs, k);
    }
    forall i: nat, k | i < |fs| && k in fs[i] && LastWith(fs, i, k)
      ensures k in MergeAll(fs) && MergeAll(fs)[k] == fs[i][k]
    {
      MergeAllLastWins(fs, i, k);
    }
  }

  /** Merging two runs of fragments is merging their merges: the fold can be split anywhere. */
  lemma {:induction false} MergeAllAppend(a: seq<Object>, b: seq<Object>)
    ensures MergeAll(a + b) == MergeAll(a) + MergeAll(b)
  {
    if b != [] {
      var n := |b| - 1;
      assert (a + b)[..|a + b| - 1] == a + b[..n];
      MergeAllAppend(a, b[..n]);
      assert MergeAll(a + b) == MergeAll(a + b[..n]) + b[n];
      assert MergeAll(b) == MergeAll(b[..n]) + b[n];
    } else {
      assert a + b == a;
    }
  }

  // ---------------------------------------------------------------------------
  // Form serialisation

  /**
    The one name under which assigning a string to a plain object stores
    nothing: it reaches the inherited `__proto__` setter, which ignores
    non-object values.
   */
  const ProtoKey: string := "__proto__"

  /**
    The control names field `k` and its value is stored: its `data-rebilly`
    attribute is present and equals `k`, which is neither empty nor `__proto__`.
   */
  predicate Marks(c: Control, k: string) {
    c.rebilly == Some(k) && k != "" && k != ProtoKey
  }

  /** No control after the `i`th names field `k`. */
  predicate LastMarking(form: seq<Control>, i: nat, k: string) {
    forall j :: i < j < |form| ==> !Marks(form[j], k)
  }

  /**
    One side of `serializeForm`'s result: the kept controls whose name is an
    instrument field (`instrument`) or is not (`!instrument`), each value stored
    under its name in document order.
   */
  function FormSide(form: seq<Control>, instrument: bool): Object {
    if form == [] then map[]
    else
      var m := FormSide(form[..|form| - 1], instrument);
      var c := form[|form| - 1];
      if c.rebilly.Some? && Marks(c, c.rebilly.value) && (c.rebilly.value in InstrumentFields) == instrument
      then m[c.rebilly.value := Str(c.value)]
      else m
  }

  /** `serializeForm`'s result: both sides, always objects. */
  function FormData(form: seq<Control>): Object {
    map["paymentInstrument" := Obj(FormSide(form, true)), "billingAddress" := Obj(FormSide(form, false))]
  }

  /**
    A field is on a side exactly when some kept control names it and the
    field's membership in the instrument list picks that side.
   */
  lemma {:induction false} FormSideKeys(form: seq<Control>, instrument: bool, k: string)
    ensures k in FormSide(form, instrument) <==>
      (k in InstrumentFields) == instrument && exists i :: 0 <= i < |form| && Marks(form[i], k)
  {
    if form != [] {
      var n := |form| - 1;
      var init := form[..n];
      FormSideKeys(init, instrument, k);
      if k in FormSide(form, instrument) && !Marks(form[n], k) {
        var i :| 0 <= i < n && Marks(init[i], k);
        assert form[i] == init[i];
      }
      if k !in FormSide(form, instrument) && (k in InstrumentFields) == instrument {
        forall i | 0 <= i < |form| ensures !Marks(form[i], k) {
          if i < n {
            assert init[i] == form[i];
          }
        }
      }
    }
  }

  /** A field holds the value, verbatim, of the last kept control that names it. */
  lemma {:induction false} FormSideLastWins(form: seq<Control>, i: nat, k: string)
    requires i < |form| && Marks(form[i], k) && LastMarking(form, i, k)
    ensures k in FormSide(form, k in InstrumentFields)
    ensures FormSide(form, k in InstrumentFields)[k] == Str(form[i].value)
  {
    var n := |form| - 1;
    if i < n {
      var init := form[..n];
      assert init[i] == form[i];
      assert LastMarking(init, i, k) by {
        forall j | i < j < |init| ensures !Marks(init[j], k) {
          assert init[j] == form[j];
        }
      }
      FormSideLastWins(init, i, k);
    }
  }

  /**
    Every kept control lands in exactly one of the two objects, and no field
    name is in both.
   */
  lemma FormPartition(form: seq<Control>, k: string)
    ensures !(k in FormSide(form, true) && k in FormSide(form, false))
    ensures (exists i :: 0 <= i < |form| && Marks(form[i], k)) <==>
      (k in FormSide(form, true) || k in FormSide(form, false))
  {
    FormSideKeys(form, true, k);
    FormSideKeys(form, false, k);
  }

  /** A control named `__proto__` stores nothing on either side. */
  lemma ProtoFieldNotStored(form: seq<Control>)
    ensures ProtoKey !in FormSide(form, true) && ProtoKey !in FormSide(form, false)
  {
    FormSideKeys(form, true, ProtoKey);
    FormSideKeys(form, false, ProtoKey);
  }

  /**
    `serializeForm` always returns both objects, never null, and every value
    in them is a kept control's value copied verbatim, empty or not.
   */
  lemma FormDataShape(form: seq<Control>)
    ensures FormData(form).Keys == {"paymentInstrument", "billingAddress"}
    ensures FormData(form)["paymentInstrument"] == Obj(FormSide(form, true))
    ensures FormData(form)["billingAddress"] == Obj(FormSide(form, false))
    ensures forall b: bool, k :: k in FormSide(form, b) ==>
      exists i :: 0 <= i < |form| && Marks(form[i], k) && FormSide(form, b)[k] == Str(form[i].value)
  {
    forall b: bool, k | k in FormSide(form, b)
      ensures exists i :: 0 <= i < |form| && Marks(form[i], k) && FormSide(form, b)[k] == Str(form[i].value)
    {
      FormSideKeys(form, b, k);
      var i := LastMarkingIndex(form, k);
      FormSideLastWins(form, i, k);
    }
  }

  /** The index of the last control that names `k`, given that one does. */
  lemma {:induction false} LastMarkingIndex(form: seq<Control>, k: string) returns (i: nat)
    requires exists j :: 0 <= j < |form| && Marks(form[j], k)
    ensures i < |form| && Marks(form[i], k) && LastMarking(form, i, k)
  {
    var n := |form| - 1;
    if Marks(form[n], k) {
      i := n;
    } else {
      var init := form[..n];
      var j :| 0 <= j < |form| && Marks(form[j], k);
      assert j < n && init[j] == form[j];
      i := LastMarkingIndex(init, k);
      assert init[i] == form[i];
      forall m | i < m < |form| ensures !Marks(form[m], k) {
        if m < n {
          assert init[m] == form[m];
        }
      }
    }
  }

  // ---------------------------------------------------------------------------
  // Method resolution

  /** `data.method === name` */
  predicate MethodIs(o: Object, name: string) {
    "method" in o && o["method"] == Str(name)
  }

  /** The `forEach` of `convertLegacyMethods` over a prefix of its table. */
  function RewriteAliases(o: Object, table: seq<(string, string)>): Object {
    if table == [] then o
    else
      var p := RewriteAliases(o, table[..|table| - 1]);
      var (legacy, current) := table[|table| - 1];
      if MethodIs(p, legacy) then p["method" := Str(current)] else p
  }

  /** What `convertLegacyMethods` leaves in `data`. */
  function ConvertLegacy(o: Object): Object {
    RewriteAliases(o, LegacyAliases)
  }

  /**
    `payment_card` becomes `payment-card`, `bank_account` becomes `ach`; any
    other method, and every other property, is left as it was.
   */
  lemma ConvertLegacyEffect(o: Object)
    ensures ConvertLegacy(o) ==
      if MethodIs(o, "payment_card") then o["method" := Str("payment-card")]
      else if MethodIs(o, "bank_account") then o["method" := Str("ach")]
      else o
  {
    assert LegacyAliases[..1] == [("payment_card", "payment-card")];
    assert LegacyAliases[..1][..0] == [];
    assert RewriteAliases(o, LegacyAliases[..1][..0]) == o;
    var p := RewriteAliases(o, LegacyAliases[..1]);
    assert p == if MethodIs(o, "payment_card") then o["method" := Str("payment-card")] else o;
    assert ConvertLegacy(o) == if MethodIs(p, "bank_account") then p["method" := Str("ach")] else p;
  }

  /** After conversion no legacy name is left. */
  lemma ConvertLegacyClears(o: Object)
    ensures !MethodIs(ConvertLegacy(o), "payment_card") && !MethodIs(ConvertLegacy(o), "bank_account")
  {
    ConvertLegacyEffect(o);
  }

  /** Converting twice is converting once. */
  lemma ConvertLegacyIdempotent(o: Object)
    ensures ConvertLegacy(ConvertLegacy(o)) == ConvertLegacy(o)
  {
    ConvertLegacyEffect(o);
    ConvertLegacyEffect(ConvertLegacy(o));
  }

  /**
    The keys `Object.keys` reports for a payment instrument. A string or an
    array reports its indices, which are never a vocabulary name, so only an
    object's own property names can reveal a method.
   */
  function InstrumentKeys(v: Value): set<string> {
    match v
    case Obj(props) => props.Keys
    case _ => {}
  }

  /** The `forEach` of `detectMethod` over a prefix of its table, for the instrument's keys. */
  function DetectWith(o: Object, keys: set<string>, table: seq<(string, set<string>)>): Object {
    if table == [] then o
    else
      var p := DetectWith(o, keys, table[..|table| - 1]);
      var (name, vocabulary) := table[|table| - 1];
      if keys * vocabulary != {} && !TruthyAt(p, "method") then p["method" := Str(name)] else p
  }

  /**
    What `detectMethod` leaves in `data`. `Object.keys` throws on null and
    undefined, so the instrument must be present and not null.
   */
  function Detect(o: Object): Object
    requires "paymentInstrument" in o && o["paymentInstrument"] != Null
  {
    DetectWith(o, InstrumentKeys(o["paymentInstrument"]), MethodVocabularies)
  }

  /**
    A truthy method is kept; otherwise a card field gives `payment-card`, else
    an ACH field gives `ach` (so the card wins when both appear), else nothing
    changes. No other property changes.
   */
  lemma DetectEffect(o: Object)
    requires "paymentInstrument" in o && o["paymentInstrument"] != Null
    ensures var keys := InstrumentKeys(o["paymentInstrument"]);
      Detect(o) ==
        if TruthyAt(o, "method") then o
        else if keys * CardFields != {} then o["method" := Str("payment-card")]
        else if keys * AchFields != {} then o["method" := Str("ach")]
        else o
  {
    var keys := InstrumentKeys(o["paymentInstrument"]);
    assert MethodVocabularies[..1] == [("payment-card", CardFields)];
    assert MethodVocabularies[..1][..0] == [];
    assert DetectWith(o, keys, MethodVocabularies[..1][..0]) == o;
    var p := DetectWith(o, keys, MethodVocabularies[..1]);
    assert p == if keys * CardFields != {} && !TruthyAt(o, "method") then o["method" := Str("payment-card")] else o;
    assert Detect(o) == if keys * AchFields != {} && !TruthyAt(p, "method") then p["method" := Str("ach")] else p;
  }

  /**
    The method-resolution branch of `createToken`: a truthy method is
    converted, else a truthy instrument triggers detection, else the request
    is refused.
   */
  function ResolveMethod(o: Object): Result<Object, TokenError> {
    if TruthyAt(o, "method") then Success(ConvertLegacy(o))
    else if TruthyAt(o, "paymentInstrument") then Success(Detect(o))
    else Failure(MissingMethodAndInstrument)
  }

  /** Resolution fails exactly when there is neither a truthy method nor a truthy instrument. */
  lemma ResolveFails(o: Object)
    ensures ResolveMethod(o).Failure? <==> !TruthyAt(o, "method") && !TruthyAt(o, "paymentInstrument")
    ensures ResolveMethod(o).Failure? ==> ResolveMethod(o).error == MissingMethodAndInstrument
  {
  }

  /**
    A resolved request never carries a legacy method, and resolution touches
    no property other than `method`.
   */
  lemma ResolvedHasNoLegacyMethod(o: Object)
    requires ResolveMethod(o).Success?
    ensures var d := ResolveMethod(o).value;
      && !MethodIs(d, "payment_card") && !MethodIs(d, "bank_account")
      && d.Keys == o.Keys + (if "method" in d then {"method"} else {})
      && forall k :: k in o && k != "method" ==> d[k] == o[k]
  {
    if TruthyAt(o, "method") {
      ConvertLegacyEffect(o);
    } else {
      DetectEffect(o);
      assert !MethodIs(o, "payment_card") && !MethodIs(o, "bank_account");
    }
  }

  /**
    An instrument with no card or ACH field leaves the data as it is: when
    `method` is absent, the request is issued without one.
   */
  lemma UnknownInstrumentSentWithoutMethod(o: Object)
    requires !TruthyAt(o, "method") && TruthyAt(o, "paymentInstrument")
    requires InstrumentKeys(o["paymentInstrument"]) * (CardFields + AchFields) == {}
    ensures ResolveMethod(o) == Success(o)
    ensures "method" !in o ==> "method" !in ResolveMethod(o).value
  {
    DetectEffect(o);
    var keys := InstrumentKeys(o["paymentInstrument"]);
    assert keys * CardFields == {} && keys * AchFields == {} by {
      assert keys * CardFields <= keys * (CardFields + AchFields);
      assert keys * AchFields <= keys * (CardFields + AchFields);
    }
  }

  /**
    The three detection cases exercised for `detectMethod`: a card number
    gives `payment-card`, a routing number `ach`, and an unknown field leaves
    a null method null.
   */
  lemma DetectExamples()
    ensures MethodIs(Detect(map["paymentInstrument" := Obj(map["pan" := Str("4111111111111111")])]), "payment-card")
    ensures MethodIs(Detect(map["paymentInstrument" := Obj(map["routingNumber" := Str("12345678")]), "method" := Null]), "ach")
    ensures var other := map["paymentInstrument" := Obj(map["foo" := Str("bar")]), "method" := Null];
      Detect(other) == other
  {
    var card := map["paymentInstrument" := Obj(map["pan" := Str("4111111111111111")])];
    DetectEffect(card);
    assert "pan" in InstrumentKeys(card["paymentInstrument"]) * CardFields;
    var ach := map["paymentInstrument" := Obj(map["routingNumber" := Str("12345678")]), "method" := Null];
    DetectEffect(ach);
    assert InstrumentKeys(ach["paymentInstrument"]) == {"routingNumber"};
    assert "routingNumber" in InstrumentKeys(ach["paymentInstrument"]) * AchFields;
    var other := map["paymentInstrument" := Obj(map["foo" := Str("bar")]), "method" := Null];
    DetectEffect(other);
    assert InstrumentKeys(other["paymentInstrument"]) == {"foo"};
  }

  // ---------------------------------------------------------------------------
  // Request data

  /** The base data: a copy of the literal, or the serialised form. */
  function BaseData(payload: Payload): Object {
    match payload
    case Literal(props) => props
    case Form(controls) => FormData(controls)
  }

  /**
    `createToken`'s data as written: `moduleData` holds a pending Promise, whose
    spread adds no property, so the module fragments never reach the request.
   */
  function RequestDataAsWritten(payload: Payload, modules: seq<Object>): Object {
    BaseData(payload)
  }

  /** `{...data, ...moduleData}` with `moduleData` the merged module fragments. */
  function RequestData(payload: Payload, modules: seq<Object>): Object {
    BaseData(payload) + MergeAll(modules)
  }

  /** Two modules with a common key: the later one wins and both keys are kept. */
  lemma MergeExample()
    ensures MergeAll([map["foo" := Str("bar")], map["foo" := Str("baz"), "hello" := Str("world")]])
         == map["foo" := Str("baz"), "hello" := Str("world")]
  {
  }

  /** As written, a fragment's property is lost: a module returning `{foo: "bar"}` adds nothing. */
  lemma ModuleDataDroppedAsWritten()
    ensures var payload := Literal(map["method" := Str("ach")]);
      var modules := [map["foo" := Str("bar")]];
      && "foo" !in RequestDataAsWritten(payload, modules)
      && "foo" in RequestData(payload, modules)
  {
  }

  /**
    With the merge in place, every module property reaches the request, a later
    module wins over an earlier one and any module wins over the base data;
    base properties no module sets are kept.
   */
  lemma RequestDataCarriesModules(payload: Payload, modules: seq<Object>, k: string)
    ensures k in RequestData(payload, modules) <==>
      k in BaseData(payload) || exists i :: 0 <= i < |modules| && k in modules[i]
    ensures forall i: nat :: i < |modules| && k in modules[i] && LastWith(modules, i, k) ==>
      RequestData(payload, modules)[k] == modules[i][k]
    ensures k in BaseData(payload) && (forall i :: 0 <= i < |modules| ==> k !in modules[i]) ==>
      RequestData(payload, modules)[k] == BaseData(payload)[k]
  {
    MergeAllSpec(modules);
  }

  // ---------------------------------------------------------------------------
  // Response normalisation

  /**
    The result `handleResponse` delivers for a reply: `xhr` and `status` come
    from the response; a transport error gives `error`, no data and the error's
    message, otherwise the body and `"success"`.
   */
  predicate Normalised(reply: Reply, t: TokenResult) {
    && t.xhr == reply.response.rawRequest
    && t.status == reply.response.statusCode
    && (reply.error.Some? ==> t.error && t.data == Null && t.message == reply.error.value)
    && (reply.error.None? ==> !t.error && t.data == reply.body && t.message == "success")
  }

  /** A reply has exactly one normalised result. */
  lemma NormalisedUnique(reply: Reply, t: TokenResult, u: TokenResult)
    requires Normalised(reply, t) && Normalised(reply, u)
    ensures t == u
  {
  }

  // ---------------------------------------------------------------------------
  // The handler

  class Handler {
    var endpoint: Option<string>
    var authorization: Option<string>
    /** The modules, each as the fragment it resolves to. */
    var modules: seq<Object>

    /** Stores the modules and the endpoint; no authorization yet. */
    constructor (modules: seq<Object>, endpoint: Option<string>)
      ensures this.modules == modules && this.endpoint == endpoint && authorization == None
    {
      this.modules := modules;
      this.endpoint := endpoint;
      authorization := None;
    }

    /** Replaces the endpoint; `None` is null, which is also what a call without argument stores. */
    method SetEndpoint(url: Option<string>)
      modifies this`endpoint
      ensures endpoint == url
      ensures authorization == old(authorization) && modules == old(modules)
    {
      endpoint := url;
    }

    /** Replaces the authorization; `None` is null, which is also what a call without argument stores. */
    method SetAuth(signature: Option<string>)
      modifies this`authorization
      ensures authorization == signature
      ensures endpoint == old(endpoint) && modules == old(modules)
    {
      authorization := signature;
    }

    /** The modules' fragments merged left to right; `{}` when there are none. */
    function ProcessModules(): (r: Object)
      reads this
      ensures modules == [] ==> r == map[]
      ensures forall k :: k in r <==> exists i :: 0 <= i < |modules| && k in modules[i]
      ensures forall i: nat, k :: i < |modules| && k in modules[i] && LastWith(modules, i, k) ==> r[k] == modules[i][k]
    {
      MergeAllSpec(modules);
      MergeAll(modules)
    }

    /** Serialises the form's marked `input` controls into the two objects. */
    method SerializeForm(form: seq<Control>) returns (data: Object)
      ensures data == FormData(form)
    {
      var paymentInstrument: Object := map[];
      var billingAddress: Object := map[];
      var i := 0;
      while i < |form|
        invariant 0 <= i <= |form|
        invariant paymentInstrument == FormSide(form[..i], true)
        invariant billingAddress == FormSide(form[..i], false)
      {
        var field := form[i];
        if field.rebilly.Some? {
          var prop := field.rebilly.value;
          if prop != "" {
            if prop in InstrumentFields {
              paymentInstrument := paymentInstrument[prop := Str(field.value)];
            } else if prop != ProtoKey {
              billingAddress := billingAddress[prop := Str(field.value)];
            }
          }
        }
        assert form[..i + 1][..i] == form[..i];
        i := i + 1;
      }
      assert form[..i] == form;
      data := map["paymentInstrument" := Obj(paymentInstrument), "billingAddress" := Obj(billingAddress)];
    }

    /** The transport configuration for `data`, from the current endpoint and authorization. */
    function GetConfig(data: Object): (c: RequestConfig)
      reads this
      ensures c.httpMethod == "post" && c.json
      ensures c.uri == endpoint
      ensures c.headers == map["reb-auth" := NullableString(authorization)]
      ensures c.body == Obj(data)
    {
      RequestConfig("post", Obj(data), endpoint, true, map["reb-auth" := NullableString(authorization)])
    }

    /** Builds the callback's argument from the transport's reply. */
    method HandleResponse(reply: Reply) returns (params: TokenResult)
      ensures Normalised(reply, params)
    {
      params := TokenResult(reply.response.rawRequest, reply.response.statusCode, false, Null, "success");
      if reply.error.Some? {
        params := params.(error := true, message := reply.error.value);
      } else {
        params := params.(data := reply.body);
      }
    }

    /** Rewrites a legacy method name in `data` in place. */
    method ConvertLegacyMethods(data: DataObject)
      modifies data
      ensures data.props == ConvertLegacy(old(data.props))
    {
      var i := 0;
      while i < |LegacyAliases|
        invariant 0 <= i <= |LegacyAliases|
        invariant data.props == RewriteAliases(old(data.props), LegacyAliases[..i])
      {
        var (legacy, current) := LegacyAliases[i];
        if MethodIs(data.props, legacy) {
          data.props := data.props["method" := Str(current)];
        }
        assert LegacyAliases[..i + 1][..i] == LegacyAliases[..i];
        i := i + 1;
      }
      assert LegacyAliases[..i] == LegacyAliases;
    }

    /** Sets `data.method` from the instrument's fields when it is not truthy. */
    method DetectMethod(data: DataObject)
      requires "paymentInstrument" in data.props && data.props["paymentInstrument"] != Null
      modifies data
      ensures data.props == Detect(old(data.props))
    {
      var fields := InstrumentKeys(data.props["paymentInstrument"]);
      var i := 0;
      while i < |MethodVocabularies|
        invariant 0 <= i <= |MethodVocabularies|
        invariant data.props == DetectWith(old(data.props), fields, MethodVocabularies[..i])
      {
        var (name, vocabulary) := MethodVocabularies[i];
        var found := fields * vocabulary != {};
        if found && !TruthyAt(data.props, "method") {
          data.props := data.props["method" := Str(name)];
        }
        assert MethodVocabularies[..i + 1][..i] == MethodVocabularies[..i];
        i := i + 1;
      }
      assert MethodVocabularies[..i] == MethodVocabularies;
    }

    /**
      `createToken`: refuses without authorization, builds the data, resolves
      the method or refuses, then issues one request and delivers one result.
      A refusal issues no request and delivers nothing.
     */
    method CreateToken(payload: Payload, reply: Reply) returns (r: Result<Exchange, TokenError>)
      ensures authorization == None ==> r == Failure(MissingAuthorization)
      ensures authorization != None ==>
        var resolved := ResolveMethod(RequestData(payload, modules));
        && (resolved.Failure? ==> r == Failure(resolved.error))
        && (resolved.Success? ==>
              && r.Success?
              && r.value.request == GetConfig(resolved.value)
              && Normalised(reply, r.value.delivered))
      ensures r.Success? ==>
        && r.value.request.body.Obj?
        && !MethodIs(r.value.request.body.props, "payment_card")
        && !MethodIs(r.value.request.body.props, "bank_account")
    {
      if authorization == None {
        return Failure(MissingAuthorization);
      }
      var base: Object;
      match payload {
        case Literal(props) => base := props;
        case Form(controls) => base := SerializeForm(controls);
      }
      var data := new DataObject(base + ProcessModules());
      if TruthyAt(data.props, "method") {
        ConvertLegacyMethods(data);
      } else if TruthyAt(data.props, "paymentInstrument") {
        DetectMethod(data);
      } else {
        return Failure(MissingMethodAndInstrument);
      }
      ResolvedHasNoLegacyMethod(RequestData(payload, modules));
      var config := GetConfig(data.props);
      var delivered := HandleResponse(reply);
      r := Success(Exchange(config, delivered));
    }
  }

  /**
    The two refusals: without authorization, and with data that has neither a
    method nor a payment instrument. Neither issues a request.
   */
  method RefusalScenarios(reply: Reply) returns (noAuth: Result<Exchange, TokenError>, badData: Result<Exchange, TokenError>)
    ensures noAuth == Failure(MissingAuthorization)
    ensures badData == Failure(MissingMethodAndInstrument)
  {
    var h := new Handler([], Some("test-url"));
    h.SetAuth(None);
    noAuth := h.CreateToken(Literal(map[]), reply);
    h.SetAuth(Some("123456789"));
    var bad := map["bad" := Str("data")];
    assert RequestData(Literal(bad), h.modules) == bad;
    badData := h.CreateToken(Literal(bad), reply);
  }
}
