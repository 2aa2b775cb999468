/**
 * The free-text entry form: the text box, the formatting toggles and the styles they give
 * the box, and the submit that hands the text on and resets the form.
 */
module TextEntry {
  import opened Wrappers
  import Strings

  /** Submit is disabled while the text is blank after trimming. */
  function SubmitDisabled(text: string): (r: bool)
    ensures r <==> Strings.AllSpace(text)
  {
    Strings.Trim(text) == ""
  }

  /** Submit is enabled exactly when the text holds a non-space character. */
  lemma SubmitEnabledIffNonBlank(text: string)
    ensures !SubmitDisabled(text) <==> exists i :: 0 <= i < |text| && !Strings.IsSpace(text[i])
  {
  }

  /** A CSS style object: property name to value. */
  type Style = map<string, string>

  /** `applyFormatting(format)`: the style one toggle contributes; list toggles and unknown values contribute none. */
  function ApplyFormatting(format: string): (r: Style)
    ensures format == "bold" ==> r == map["fontWeight" := "bold"]
    ensures format == "italic" ==> r == map["fontStyle" := "italic"]
    ensures format == "underlined" ==> r == map["textDecoration" := "underline"]
    ensures format != "bold" && format != "italic" && format != "underlined" ==> r == map[]
  {
    match format
    case "bold" => map["fontWeight" := "bold"]
    case "italic" => map["fontStyle" := "italic"]
    case "underlined" => map["textDecoration" := "underline"]
    case _ => map[]
  }

  /** The three style properties a toggle can set. */
  const StyleKeys: set<string> := {"fontWeight", "fontStyle", "textDecoration"}

  /**
   * `formats.reduce((styles, f) => ({ ...styles, ...applyFormatting(f) }), {})`: each toggle's
   * style is spread over the styles of the toggles before it. A property is present exactly
   * when its toggle is on, whatever the order and repetition of the toggles.
   */
  function TextStyles(formats: seq<string>): (r: Style)
    ensures r.Keys <= StyleKeys
    ensures "fontWeight" in r <==> "bold" in formats
    ensures "fontStyle" in r <==> "italic" in formats
    ensures "textDecoration" in r <==> "underlined" in formats
    ensures "fontWeight" in r ==> r["fontWeight"] == "bold"
    ensures "fontStyle" in r ==> r["fontStyle"] == "italic"
    ensures "textDecoration" in r ==> r["textDecoration"] == "underline"
  {
    if formats == [] then map[]
    else
      var init := formats[..|formats| - 1];
      assert formats == init + [formats[|formats| - 1]];
      TextStyles(init) + ApplyFormatting(formats[|formats| - 1])
  }

  /** Two toggle lists holding the same toggles give the same styles. */
  lemma StylesDependOnlyOnToggles(fs: seq<string>, gs: seq<string>)
    requires forall f :: f in fs <==> f in gs
    ensures TextStyles(fs) == TextStyles(gs)
  {
    var a, b := TextStyles(fs), TextStyles(gs);
    assert a.Keys == b.Keys;
    forall k | k in a
      ensures a[k] == b[k]
    {
    }
  }

  /** Turning on a list toggle (or any unknown one) adds no style. */
  lemma ListTogglesAddNoStyle(fs: seq<string>, f: string)
    requires f != "bold" && f != "italic" && f != "underlined"
    ensures TextStyles(fs + [f]) == TextStyles(fs)
  {
    assert (fs + [f])[..|fs|] == fs;
  }

  /** The form's state. */
  class TextEntryForm {
    var text: string
    var formats: seq<string>

    /** Mounted empty, with no toggle on. */
    constructor ()
      ensures text == "" && formats == []
    {
      text := "";
      formats := [];
    }

    /** `handleTextChange`. */
    method HandleTextChange(value: string)
      modifies this`text
      ensures text == value
    {
      text := value;
    }

    /** `handleFormatChange`: the toggle group hands over the whole new list. */
    method HandleFormatChange(newFormats: seq<string>)
      modifies this`formats
      ensures formats == newFormats
    {
      formats := newFormats;
    }

    /**
     * `handleSubmit`: a text with a non-space character is handed to `onTextSubmit` as
     * typed, untrimmed, and the text and toggles are cleared; a blank text does nothing.
     */
    method HandleSubmit() returns (submitted: Option<string>)
      modifies this`text, this`formats
      ensures SubmitDisabled(old(text)) ==> submitted == None && text == old(text) && formats == old(formats)
      ensures !SubmitDisabled(old(text)) ==> submitted == Some(old(text)) && text == "" && formats == []
    {
      if Strings.Trim(text) != "" {
        submitted := Some(text);
        text := "";
        formats := [];
      } else {
        submitted := None;
      }
    }

    /** The styles the text box currently shows. */
    function Styles(): (r: Style)
      reads this
      ensures r.Keys <= StyleKeys
    {
      TextStyles(formats)
    }
  }
}
