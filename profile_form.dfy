/**
 * The household selection form: the user either picks one of the demo
 * household profiles or types a five-digit ZIP code for a custom home, and
 * then connects. The form keeps two pieces of state, the selected profile
 * and the ZIP text, and the two choices exclude each other.
 */
module ProfileForm {
  import opened Common

  /** A household profile as handed to the dashboard. */
  datatype ConsumerProfile = ConsumerProfile(
    name: string,
    emoji: string,
    location: string,
    zip: string,
    homeType: string,
    sqft: int,
    gridRegion: string,
    devices: seq<string>,
    threat: string,
    severity: int,
    readiness: int,
    status: string)

  /** What the form reports to its owner: `onSelect(profile)` or `onClose()`. */
  datatype ModalOutput = Selected(profile: ConsumerProfile) | Closed

  predicate AllDigits(s: string) {
    forall i :: 0 <= i < |s| ==> IsDigit(s[i])
  }

  /** The ZIP field's filter: the text with every non-digit removed, order kept. */
  function DigitsOnly(s: string): (r: string)
    ensures |r| <= |s|
    ensures AllDigits(r)
    ensures r == s <==> AllDigits(s)
  {
    if s == [] then []
    else (if IsDigit(s[0]) then [s[0]] else []) + DigitsOnly(s[1..])
  }

  /** The filter works character by character: it distributes over concatenation. */
  lemma {:induction false} DigitsOnlyConcat(a: string, b: string)
    ensures DigitsOnly(a + b) == DigitsOnly(a) + DigitsOnly(b)
  {
    if a == [] {
      assert a + b == b;
    } else {
      assert (a + b)[0] == a[0];
      assert (a + b)[1..] == a[1..] + b;
      DigitsOnlyConcat(a[1..], b);
    }
  }

  /** On one character the filter keeps it exactly when it is a digit. */
  lemma DigitsOnlySingle(c: char)
    ensures DigitsOnly([c]) == if IsDigit(c) then [c] else []
  {
    assert [c][1..] == [];
  }

  /** Filtering twice is filtering once. */
  lemma DigitsOnlyIdempotent(s: string)
    ensures DigitsOnly(DigitsOnly(s)) == DigitsOnly(s)
  {
  }

  /** The number of digits in `s`. */
  function DigitCount(s: string): nat {
    if s == [] then 0 else (if IsDigit(s[0]) then 1 else 0) + DigitCount(s[1..])
  }

  /** The filter drops exactly the non-digits: its length is the digit count. */
  lemma {:induction false} DigitsOnlyLength(s: string)
    ensures |DigitsOnly(s)| == DigitCount(s)
  {
    if s != [] {
      DigitsOnlyLength(s[1..]);
    }
  }

  /** The profile a custom ZIP submission produces: the ZIP, and fixed defaults for everything else. */
  function CustomProfile(zip: string): (p: ConsumerProfile)
    ensures p.zip == zip && p.location == "ZIP " + zip
    ensures p.name == "Custom Home" && p.emoji == "\U{1F3E0}" && p.homeType == "Single Family"
    ensures p.sqft == 1500 && p.gridRegion == "ERCOT" && p.devices == ["thermostat"]
    ensures p.threat == "Pending analysis" && p.severity == 2 && p.readiness == 50 && p.status == "ANALYZING"
  {
    ConsumerProfile("Custom Home", "\U{1F3E0}", "ZIP " + zip, zip, "Single Family", 1500, "ERCOT",
                    ["thermostat"], "Pending analysis", 2, 50, "ANALYZING")
  }

  /** The ZIP input's `maxLength`. */
  const MaxZipLength := 5

  class Form {
    var selected: Option<ConsumerProfile>
    var customZip: string
    var isOpen: bool

    /**
     * After every action: the ZIP text holds only digits and at most five of
     * them, and a selected profile and a non-empty ZIP never coexist.
     */
    ghost predicate Valid()
      reads this
    {
      && AllDigits(customZip)
      && |customZip| <= MaxZipLength
      && !(selected.Some? && customZip != "")
    }

    constructor (open: bool)
      ensures Valid()
      ensures selected.None? && customZip == "" && isOpen == open
    {
      selected := None;
      customZip := "";
      isOpen := open;
    }

    /** The owner changes the `isOpen` prop; a closed-to-open change clears both fields. */
    method SetOpen(open: bool)
      requires Valid()
      modifies this
      ensures Valid()
      ensures isOpen == open
      ensures open && !old(isOpen) ==> selected.None? && customZip == ""
      ensures !(open && !old(isOpen)) ==> selected == old(selected) && customZip == old(customZip)
    {
      var changed := open != isOpen;
      isOpen := open;
      if changed && open {
        selected := None;
        customZip := "";
      }
    }

    /** Clicking a demo profile selects it and clears the ZIP text. */
    method HandleSelect(profile: ConsumerProfile)
      modifies this
      ensures Valid()
      ensures selected == Some(profile) && customZip == "" && isOpen == old(isOpen)
    {
      selected := Some(profile);
      customZip := "";
    }

    /**
     * The ZIP input changes to `raw` (at most five characters, the input's
     * `maxLength`): the stored text is `raw` without its non-digits, and any
     * non-empty `raw`, even one with no digit in it, drops the selection.
     */
    method OnZipChange(raw: string)
      requires |raw| <= MaxZipLength
      modifies this
      ensures Valid()
      ensures customZip == DigitsOnly(raw) && isOpen == old(isOpen)
      ensures raw != "" ==> selected.None?
      ensures raw == "" ==> selected == old(selected)
    {
      customZip := DigitsOnly(raw);
      if |raw| > 0 {
        selected := None;
      }
    }

    /** The connect button: report the selection and close, or do nothing when there is none. */
    method HandleConnect() returns (out: seq<ModalOutput>)
      ensures selected.Some? ==> out == [Selected(selected.value), Closed]
      ensures selected.None? ==> out == []
    {
      if selected.Some? {
        out := [Selected(selected.value), Closed];
      } else {
        out := [];
      }
    }

    /**
     * Enter in the ZIP field: with fewer than five characters nothing
     * happens; otherwise the custom profile for the ZIP is reported and the
     * form closes. From a valid state the submitted ZIP is five digits.
     */
    method HandleCustomSubmit() returns (out: seq<ModalOutput>)
      ensures |customZip| < 5 ==> out == []
      ensures |customZip| >= 5 ==> out == [Selected(CustomProfile(customZip)), Closed]
      ensures Valid() && out != [] ==>
                |out[0].profile.zip| == 5 && AllDigits(out[0].profile.zip) && out[0].profile.location == "ZIP " + customZip
    {
      if |customZip| < 5 {
        out := [];
        return;
      }
      out := [Selected(CustomProfile(customZip)), Closed];
    }
  }

  /** Typing into the ZIP field and then connecting reports nothing whenever something was typed. */
  method TypeThenConnect(f: Form, raw: string) returns (out: seq<ModalOutput>)
    requires f.Valid() && 0 < |raw| <= MaxZipLength
    modifies f
    ensures f.Valid() && out == []
  {
    f.OnZipChange(raw);
    out := f.HandleConnect();
  }
}
