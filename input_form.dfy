/** The route form: its record of field values, the keyed update made by
    every change event, the option lists of the two selects, and submission.
    The form's `name` attributes are the eight route field names, so a change
    event is modelled as a field name and the new value. */
module InputForm {
  import opened Wrappers
  import Types

  datatype FieldName =
    | OriginCountry | OriginPort | DestCountry | DestPort
    | TransportMode | CargoType | ShipmentDate | UserRole

  const AllFieldNames: seq<FieldName> :=
    [OriginCountry, OriginPort, DestCountry, DestPort, TransportMode, CargoType, ShipmentDate, UserRole]

  /** The value of the field a name designates. */
  function FieldValue(d: Types.RouteData, f: FieldName): string {
    match f
    case OriginCountry => d.originCountry
    case OriginPort => d.originPort
    case DestCountry => d.destCountry
    case DestPort => d.destPort
    case TransportMode => d.transportMode
    case CargoType => d.cargoType
    case ShipmentDate => d.shipmentDate
    case UserRole => d.userRole
  }

  /** `{ ...prev, [name]: value }`: the named field takes the new value and
      every other field keeps its value. */
  function WithField(d: Types.RouteData, f: FieldName, v: string): (e: Types.RouteData)
    ensures FieldValue(e, f) == v
    ensures forall g :: g != f ==> FieldValue(e, g) == FieldValue(d, g)
  {
    match f
    case OriginCountry => d.(originCountry := v)
    case OriginPort => d.(originPort := v)
    case DestCountry => d.(destCountry := v)
    case DestPort => d.(destPort := v)
    case TransportMode => d.(transportMode := v)
    case CargoType => d.(cargoType := v)
    case ShipmentDate => d.(shipmentDate := v)
    case UserRole => d.(userRole := v)
  }

  /** `WithField` is the only record with the new value in the named field and
      the old values everywhere else; in particular writing a field's own
      value back changes nothing. */
  lemma WithFieldIsUnique(d: Types.RouteData, f: FieldName, v: string, e: Types.RouteData)
    requires FieldValue(e, f) == v
    requires forall g :: g != f ==> FieldValue(e, g) == FieldValue(d, g)
    ensures e == WithField(d, f, v)
    ensures FieldValue(d, f) == v ==> e == d
  {
    var w := WithField(d, f, v);
    forall g ensures FieldValue(e, g) == FieldValue(w, g) {
    }
    assert FieldValue(e, OriginCountry) == FieldValue(w, OriginCountry);
    assert FieldValue(e, OriginPort) == FieldValue(w, OriginPort);
    assert FieldValue(e, DestCountry) == FieldValue(w, DestCountry);
    assert FieldValue(e, DestPort) == FieldValue(w, DestPort);
    assert FieldValue(e, TransportMode) == FieldValue(w, TransportMode);
    assert FieldValue(e, CargoType) == FieldValue(w, CargoType);
    assert FieldValue(e, ShipmentDate) == FieldValue(w, ShipmentDate);
    assert FieldValue(e, UserRole) == FieldValue(w, UserRole);
  }

  /** The initial record: the five text fields empty, sea freight, logistics
      manager, and the date of `today` (the source reads the clock). */
  function InitialFormData(today: string): (d: Types.RouteData)
    ensures d.originCountry == d.originPort == d.destCountry == d.destPort == d.cargoType == ""
    ensures Types.TransportModeFromWire(d.transportMode) == Some(Types.Sea)
    ensures Types.UserRoleFromWire(d.userRole) == Some(Types.LogisticsManager)
    ensures d.shipmentDate == today
  {
    Types.RouteData("", "", "", "", Types.TransportModeWire(Types.Sea), "",
                    today, Types.UserRoleWire(Types.LogisticsManager))
  }

  /** The options of the transport select and of the role select, in the
      order the form lists them. */
  const TransportOptions: seq<string> :=
    [Types.TransportModeWire(Types.Sea), Types.TransportModeWire(Types.Air), Types.TransportModeWire(Types.Land)]
  const RoleOptions: seq<string> :=
    [Types.UserRoleWire(Types.LogisticsManager), Types.UserRoleWire(Types.ImporterExporter)]

  /** The transport select offers exactly the three transport modes and the
      role select exactly the two roles. */
  lemma OptionsAreTheEnums()
    ensures |TransportOptions| == 3 && |RoleOptions| == 2
    ensures forall v :: v in TransportOptions <==> Types.TransportModeFromWire(v).Some?
    ensures forall v :: v in RoleOptions <==> Types.UserRoleFromWire(v).Some?
  {
  }

  /** The values a change event can carry for a field: a select delivers one
      of its options, a text or date input any string. */
  predicate Offered(f: FieldName, v: string) {
    && (f == TransportMode ==> v in TransportOptions)
    && (f == UserRole ==> v in RoleOptions)
  }

  /** The initial record holds legal enumeration values, and every change the
      form can deliver keeps them legal. */
  lemma ChangesKeepEnums(d: Types.RouteData, f: FieldName, v: string, today: string)
    ensures Types.RouteEnumsValid(InitialFormData(today))
    ensures Types.RouteEnumsValid(d) && Offered(f, v) ==> Types.RouteEnumsValid(WithField(d, f, v))
  {
  }

  /** The six inputs marked `required` are non-empty; the browser refuses to
      submit the form otherwise. */
  predicate RequiredFilled(d: Types.RouteData) {
    && d.originCountry != "" && d.originPort != "" && d.destCountry != ""
    && d.destPort != "" && d.cargoType != "" && d.shipmentDate != ""
  }

  /** The initial form cannot be submitted until the text fields are filled. */
  lemma InitialNeedsInput(today: string)
    ensures !RequiredFilled(InitialFormData(today))
    ensures forall f :: f in AllFieldNames && f != TransportMode && f != UserRole && f != ShipmentDate ==>
      FieldValue(InitialFormData(today), f) == ""
  {
  }

  /** The form component and the record it keeps in its state. */
  class RouteForm {
    var formData: Types.RouteData

    constructor (today: string)
      ensures formData == InitialFormData(today)
    {
      formData := InitialFormData(today);
    }

    /** `handleChange`. */
    method HandleChange(f: FieldName, v: string)
      modifies this
      ensures formData == WithField(old(formData), f, v)
    {
      formData := WithField(formData, f, v);
    }

    /** `handleSubmit`: hands the current record on unchanged, without any
        validation of its own. */
    method HandleSubmit() returns (submitted: Types.RouteData)
      ensures submitted == formData
    {
      submitted := formData;
    }

    /** Pressing the submit button: the button is disabled while loading, the
        browser checks the `required` inputs, and then `handleSubmit` runs. */
    method Submit(isLoading: bool) returns (submitted: Option<Types.RouteData>)
      ensures submitted.Some? <==> !isLoading && RequiredFilled(formData)
      ensures submitted.Some? ==> submitted.value == formData
    {
      if isLoading || !RequiredFilled(formData) {
        return None;
      }
      var d := HandleSubmit();
      submitted := Some(d);
    }
  }
}
