/** The restaurant setup form of app/setup/page.tsx without its markup: the
    form data, the validator that rejects a blank name or location, and the
    restaurant that a successful submit hands to the store. */
module SetupForm {
  import opened Types
  import opened Store

  /** The characters `String.prototype.trim` removes: the white space and
      line terminators of section 12.2 and 12.3 of ECMA-262 (tab, vertical
      tab, form feed, space, no-break space, byte order mark, the other
      space separators of Unicode category Zs, line feed, carriage return,
      line and paragraph separator). */
  predicate IsJsWhitespace(c: char)
  {
    || c == '\t' || c == '\n' || c == '\U{000B}' || c == '\U{000C}' || c == '\r' || c == ' '
    || c == '\U{00A0}' || c == '\U{1680}' || ('\U{2000}' <= c <= '\U{200A}')
    || c == '\U{2028}' || c == '\U{2029}' || c == '\U{202F}' || c == '\U{205F}'
    || c == '\U{3000}' || c == '\U{FEFF}'
  }

  /** `s` without its leading white space. */
  function TrimStart(s: string): (r: string)
    ensures |r| <= |s| && r == s[|s| - |r|..]
    ensures forall i :: 0 <= i < |s| - |r| ==> IsJsWhitespace(s[i])
    ensures r == [] || !IsJsWhitespace(r[0])
    decreases |s|
  {
    if |s| > 0 && IsJsWhitespace(s[0]) then TrimStart(s[1..]) else s
  }

  /** `s` without its trailing white space. */
  function TrimEnd(s: string): (r: string)
    ensures |r| <= |s| && r == s[..|r|]
    ensures forall i :: |r| <= i < |s| ==> IsJsWhitespace(s[i])
    ensures r == [] || !IsJsWhitespace(r[|r| - 1])
    decreases |s|
  {
    if |s| > 0 && IsJsWhitespace(s[|s| - 1]) then TrimEnd(s[..|s| - 1]) else s
  }

  /** The characters after what `TrimEnd` keeps of a suffix of `s` are
      white space. */
  lemma TrimEndOfSuffix(s: string, a: nat)
    requires a <= |s|
    ensures forall i :: a + |TrimEnd(s[a..])| <= i < |s| ==> IsJsWhitespace(s[i])
  {
    var t := s[a..];
    forall i | a + |TrimEnd(t)| <= i < |s| ensures IsJsWhitespace(s[i]) {
      assert s[i] == t[i - a];
    }
  }

  /** `s.trim()`: the piece of `s` that starts after its leading white
      space (`|s| - |TrimStart(s)|` characters), is followed by white space
      only, and neither starts nor ends with white space. */
  function Trim(s: string): (r: string)
    ensures |s| - |TrimStart(s)| + |r| <= |s|
    ensures r == s[|s| - |TrimStart(s)|..|s| - |TrimStart(s)| + |r|]
    ensures forall i :: |s| - |TrimStart(s)| + |r| <= i < |s| ==> IsJsWhitespace(s[i])
    ensures r == [] || (!IsJsWhitespace(r[0]) && !IsJsWhitespace(r[|r| - 1]))
  {
    var t := TrimStart(s);
    var r := TrimEnd(t);
    assert r == s[|s| - |t|..][..|r|];
    TrimEndOfSuffix(s, |s| - |t|);
    r
  }

  /** What `Trim` removes around the piece it keeps is white space only. */
  lemma TrimDropsOnlyWhitespace(s: string)
    ensures forall i :: 0 <= i < |s| - |TrimStart(s)| ==> IsJsWhitespace(s[i])
    ensures forall i :: |s| - |TrimStart(s)| + |Trim(s)| <= i < |s| ==> IsJsWhitespace(s[i])
  {
  }

  /** A string trims to nothing exactly when every character of it is white
      space. */
  lemma TrimBlankIff(s: string)
    ensures Trim(s) == "" <==> forall i :: 0 <= i < |s| ==> IsJsWhitespace(s[i])
  {
    var t := TrimStart(s);
    if |t| > 0 {
      assert t[0] == s[|s| - |t|];
    }
  }

  /** Trimming an already trimmed string changes nothing. */
  lemma TrimIdempotent(s: string)
    ensures Trim(Trim(s)) == Trim(s)
  {
    var t := Trim(s);
    if |t| > 0 {
      assert !IsJsWhitespace(t[|t| - 1]);
      assert TrimEnd(TrimStart(s))[0] == TrimStart(s)[0];
      assert TrimStart(t) == t;
    }
  }

  /** The form fields an error message can be attached to. */
  datatype Field = NameField | LocationField

  const MsgNameRequired := "Le nom du restaurant est requis"
  const MsgLocationRequired := "La localisation est requise"

  /** The errors `validate` records, by field. */
  function SetupErrors(data: RestaurantFormData): (errors: map<Field, string>)
    ensures NameField in errors <==> Trim(data.name) == ""
    ensures LocationField in errors <==> Trim(data.location) == ""
    ensures NameField in errors ==> errors[NameField] == MsgNameRequired
    ensures LocationField in errors ==> errors[LocationField] == MsgLocationRequired
  {
    var nameErrors := if Trim(data.name) == "" then map[NameField := MsgNameRequired] else map[];
    if Trim(data.location) == "" then nameErrors[LocationField := MsgLocationRequired] else nameErrors
  }

  /** The form is valid exactly when the name and the location each hold a
      character that is not white space. */
  lemma SetupValidIff(data: RestaurantFormData)
    ensures SetupErrors(data) == map[] <==>
              (exists i :: 0 <= i < |data.name| && !IsJsWhitespace(data.name[i]))
              && (exists i :: 0 <= i < |data.location| && !IsJsWhitespace(data.location[i]))
  {
    SetupValidIffTrimmed(data);
    assert (Trim(data.name) != "") == (exists i :: 0 <= i < |data.name| && !IsJsWhitespace(data.name[i])) by {
      TrimBlankIff(data.name);
    }
    assert (Trim(data.location) != "") == (exists i :: 0 <= i < |data.location| && !IsJsWhitespace(data.location[i])) by {
      TrimBlankIff(data.location);
    }
  }

  /** The form is valid exactly when neither field trims to nothing. */
  lemma SetupValidIffTrimmed(data: RestaurantFormData)
    ensures SetupErrors(data) == map[] <==> Trim(data.name) != "" && Trim(data.location) != ""
  {
    var errors := SetupErrors(data);
    if Trim(data.name) == "" || Trim(data.location) == "" {
      assert NameField in errors || LocationField in errors;
    }
  }

  /** The restaurant `handleSubmit` builds: the form data as typed, not
      trimmed, with the identifier `rest_<stamp>` and both times `now`. */
  function BuildRestaurant(data: RestaurantFormData, stamp: nat, now: int): (r: Restaurant)
    ensures r.id == "rest_" + NatToString(stamp)
    ensures r.name == data.name && r.location == data.location
    ensures r.kind == data.kind && r.currency == data.currency
    ensures r.createdAt == now && r.updatedAt == now
  {
    Restaurant("rest_" + NatToString(stamp), data.name, data.location, data.kind, data.currency, now, now)
  }

  /** Restaurants set up at different times get different identifiers. */
  lemma BuildRestaurantIdsDistinct(d1: RestaurantFormData, d2: RestaurantFormData, stamp1: nat, stamp2: nat, now: int)
    requires stamp1 != stamp2
    ensures BuildRestaurant(d1, stamp1, now).id != BuildRestaurant(d2, stamp2, now).id
  {
    var prefix := "rest_";
    if BuildRestaurant(d1, stamp1, now).id == BuildRestaurant(d2, stamp2, now).id {
      assert (prefix + NatToString(stamp1))[|prefix|..] == NatToString(stamp1);
      assert (prefix + NatToString(stamp2))[|prefix|..] == NatToString(stamp2);
      NatToStringInjective(stamp1, stamp2);
    }
  }

  const InitialFormData := RestaurantFormData("", "", RestaurantVenue, "XOF")

  class SetupFormState {
    var formData: RestaurantFormData
    var errors: map<Field, string>

    /** Blank name and location, the type "restaurant", the currency XOF. */
    constructor ()
      ensures formData == InitialFormData && errors == map[]
    {
      formData := InitialFormData;
      errors := map[];
    }

    method SetName(value: string)
      modifies this
      ensures formData == old(formData).(name := value) && errors == old(errors)
    {
      formData := formData.(name := value);
    }

    method SetLocation(value: string)
      modifies this
      ensures formData == old(formData).(location := value) && errors == old(errors)
    {
      formData := formData.(location := value);
    }

    method SetKind(value: RestaurantType)
      modifies this
      ensures formData == old(formData).(kind := value) && errors == old(errors)
    {
      formData := formData.(kind := value);
    }

    method SetCurrency(value: string)
      modifies this
      ensures formData == old(formData).(currency := value) && errors == old(errors)
    {
      formData := formData.(currency := value);
    }

    /** `validate`: records the errors of the current data and reports
      whether there are none. */
    method Validate() returns (ok: bool)
      modifies this
      ensures errors == SetupErrors(formData)
      ensures ok <==> errors == map[]
      ensures formData == old(formData)
    {
      var newErrors: map<Field, string> := map[];
      var name := Trim(formData.name);
      if name == "" {
        newErrors := newErrors[NameField := MsgNameRequired];
      }
      var location := Trim(formData.location);
      if location == "" {
        newErrors := newErrors[LocationField := MsgLocationRequired];
      }
      assert newErrors == SetupErrors(formData);
      errors := newErrors;
      ok := |newErrors.Keys| == 0;
      assert ok <==> newErrors == map[] by {
        if newErrors != map[] {
          var k :| k in newErrors;
        }
      }
    }

    /** `handleSubmit`: when the form is valid, the built restaurant becomes
      the store's restaurant; otherwise the store is untouched. */
    method Submit(store: AppStore, stamp: nat, now: int) returns (saved: bool)
      modifies this, store
      ensures saved <==> SetupErrors(old(formData)) == map[]
      ensures saved ==> store.restaurant == Some(BuildRestaurant(old(formData), stamp, now))
      ensures !saved ==> store.restaurant == old(store.restaurant)
      ensures formData == old(formData) && errors == SetupErrors(formData)
      ensures store.revenues == old(store.revenues) && store.expenses == old(store.expenses)
    {
      saved := Validate();
      if !saved {
        return;
      }
      store.SetRestaurant(BuildRestaurant(formData, stamp, now));
    }
  }
}
