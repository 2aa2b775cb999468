/**
 * The drop zone that takes one file at a time: the drag highlight, the extension check
 * against the accepted types, and its error text.
 */
module FileUploader {
  import opened Wrappers
  import opened KnowledgeTypes
  import Strings

  /** The accepted types when the component is given none. */
  const DefaultAcceptedTypes: seq<string> := [".txt"]

  /** `.${name.split('.').pop()?.toLowerCase()}`: a dot and the lower-cased text after the name's last dot. */
  function Extension(name: string): (r: string)
    ensures |r| >= 1 && r[0] == '.' && '.' !in r[1..]
    ensures |r| <= |name| + 1
  {
    var tail := Strings.AfterLast(name, '.');
    var low := Strings.ToLower(tail);
    assert forall j :: 0 <= j < |low| ==> low[j] == Strings.LowerChar(tail[j]);
    assert ("." + low)[1..] == low;
    "." + low
  }

  /** The extension of `base.tail`, for a tail without dots, is a dot and the lower-cased tail. */
  lemma DottedExtension(base: string, tail: string)
    requires '.' !in tail
    ensures Extension(base + "." + tail) == "." + Strings.ToLower(tail)
  {
    Strings.AfterLastSplit(base, '.', tail);
  }

  /** A name with no dot yields a dot followed by the whole lower-cased name. */
  lemma UndottedExtension(name: string)
    requires '.' !in name
    ensures Extension(name) == "." + Strings.ToLower(name)
  {
    Strings.AfterLastNone(name, '.');
  }

  /** `acceptedTypes.includes(extension)`. */
  function Accepts(acceptedTypes: seq<string>, name: string): (r: bool)
    ensures acceptedTypes == [] ==> !r
  {
    Extension(name) in acceptedTypes
  }

  /** When a name holds a dot, the text after its last dot is preceded by that dot. */
  lemma TailFollowsDot(name: string)
    requires '.' in name
    ensures var tail := Strings.AfterLast(name, '.');
      |tail| < |name| && name[|name| - |tail| - 1] == '.'
  {
  }

  /** The accepted extension ".txt" is exactly a lower-cased tail "txt". */
  lemma DefaultAcceptsTail(name: string)
    ensures Accepts(DefaultAcceptedTypes, name) <==> Strings.ToLower(Strings.AfterLast(name, '.')) == "txt"
  {
    var low := Strings.ToLower(Strings.AfterLast(name, '.'));
    assert Extension(name) == "." + low;
    if "." + low == ".txt" {
      assert low == ("." + low)[1..];
    }
  }

  /** A name whose text after its last dot lower-cases to "txt" ends in ".txt" ignoring case. */
  lemma TxtTailEndsWith(name: string)
    requires '.' in name
    requires Strings.ToLower(Strings.AfterLast(name, '.')) == "txt"
    ensures Strings.EndsWith(Strings.ToLower(name), ".txt")
  {
    var tail := Strings.AfterLast(name, '.');
    TailFollowsDot(name);
    var n := |name|;
    assert name[n - 4..] == "." + tail by {
      assert name[n - 4..] == [name[n - 4]] + name[n - 3..];
    }
    Strings.ToLowerSuffix(name, n - 4);
    Strings.ToLowerAppend(".", tail);
    assert Strings.ToLower(".") == ".";
  }

  /** A string that lower-cases to "txt" holds no dot. */
  lemma LowerTxtHasNoDot(ext: string)
    requires Strings.ToLower(ext) == "txt"
    ensures '.' !in ext
  {
    assert forall j :: 0 <= j < 3 ==> Strings.LowerChar(ext[j]) == "txt"[j];
  }

  /** A name that ends in ".txt" ignoring case has "txt", in some case, after its last dot. */
  lemma EndsWithTxtTail(name: string)
    requires Strings.EndsWith(Strings.ToLower(name), ".txt")
    ensures Strings.ToLower(Strings.AfterLast(name, '.')) == "txt"
  {
    var n := |name|;
    var s := name[n - 4..];
    Strings.ToLowerSuffix(name, n - 4);
    var ext := s[1..];
    assert s == [s[0]] + ext;
    Strings.ToLowerAppend([s[0]], ext);
    assert Strings.ToLower([s[0]]) == [Strings.LowerChar(s[0])];
    assert s[0] == '.';
    assert Strings.ToLower(ext) == "txt";
    LowerTxtHasNoDot(ext);
    assert name == name[..n - 4] + "." + ext;
    Strings.AfterLastSplit(name[..n - 4], '.', ext);
  }

  /**
   * For a name that holds a dot, the default check accepts exactly the names that end in
   * ".txt" ignoring case, the same test the knowledge base uses to decide a file is editable.
   */
  lemma DefaultAcceptsTextFiles(name: string)
    requires '.' in name
    ensures Accepts(DefaultAcceptedTypes, name) <==> Strings.EndsWith(Strings.ToLower(name), ".txt")
  {
    DefaultAcceptsTail(name);
    if Strings.ToLower(Strings.AfterLast(name, '.')) == "txt" {
      TxtTailEndsWith(name);
    }
    if Strings.EndsWith(Strings.ToLower(name), ".txt") {
      EndsWithTxtTail(name);
    }
  }

  /**
   * A file named just "TXT", with no dot, passes the default check although its name does
   * not end in ".txt". A single-input witness of the undotted case, not a general proof.
   */
  lemma UndottedNameAccepted()
    ensures Accepts(DefaultAcceptedTypes, "TXT")
    ensures !Strings.EndsWith(Strings.ToLower("TXT"), ".txt")
  {
    assert Strings.ToLower("TXT") == "txt";
    UndottedExtension("TXT");
    assert Extension("TXT") == ".txt";
  }

  /** The accepted types as the error names them: joined with " or ", dots removed, upper-cased. */
  function TypesText(acceptedTypes: seq<string>): (r: string)
    ensures '.' !in r
  {
    var bare := Strings.RemoveAll(Strings.Join(acceptedTypes, " or "), '.');
    var r := Strings.ToUpper(bare);
    assert forall j :: 0 <= j < |r| ==> r[j] == Strings.UpperChar(bare[j]);
    r
  }

  /** The fixed text before and after the type names in the rejection message. */
  const UnsupportedLead := "Unsupported file type. Please upload a "
  const UnsupportedTail := " file."

  /** The error shown for a rejected file: the accepted types named between fixed text. */
  function UnsupportedTypeError(acceptedTypes: seq<string>): (r: string)
    ensures |UnsupportedLead| + |UnsupportedTail| <= |r|
    ensures r[..|UnsupportedLead|] == UnsupportedLead && r[|r| - |UnsupportedTail|..] == UnsupportedTail
    ensures r[|UnsupportedLead|..|r| - |UnsupportedTail|] == TypesText(acceptedTypes)
  {
    UnsupportedLead + TypesText(acceptedTypes) + UnsupportedTail
  }

  /** The default types are named "TXT". */
  lemma DefaultTypesText()
    ensures TypesText(DefaultAcceptedTypes) == "TXT"
  {
    assert Strings.Join([".txt"], " or ") == ".txt";
    assert Strings.RemoveAll(".txt", '.') == "txt" by {
      Strings.RemoveAllAppend(".", "txt", '.');
      assert "." + "txt" == ".txt";
      Strings.RemoveAllAbsent("txt", '.');
    }
    assert Strings.ToUpper("txt") == "TXT";
  }

  /** Removing the dots of a dot and a dot-free tail leaves the tail: one step of `BareTwoTypes`, not an induction. */
  lemma LeadingDotDropped(tail: string)
    requires '.' !in tail
    ensures Strings.RemoveAll("." + tail, '.') == tail
  {
    Strings.RemoveAllAppend(".", tail, '.');
    Strings.RemoveAllAbsent(tail, '.');
  }

  /** Joining two dotted types and removing the dots leaves the bare types around the separator. */
  lemma BareTwoTypes(a: string, b: string, sep: string)
    requires '.' !in a && '.' !in b && '.' !in sep
    ensures Strings.RemoveAll(Strings.Join(["." + a, "." + b], sep), '.') == a + sep + b
  {
    var x, y := "." + a, "." + b;
    Strings.JoinPair(x, y, sep);
    Strings.RemoveAllAppend(x + sep, y, '.');
    Strings.RemoveAllAppend(x, sep, '.');
    LeadingDotDropped(a);
    Strings.RemoveAllAbsent(sep, '.');
    LeadingDotDropped(b);
  }

  /** Upper-casing a separator-joined pair upper-cases each part. */
  lemma UpperTriple(a: string, sep: string, b: string)
    ensures Strings.ToUpper(a + sep + b) == Strings.ToUpper(a) + Strings.ToUpper(sep) + Strings.ToUpper(b)
  {
    Strings.ToUpperAppend(a + sep, b);
    Strings.ToUpperAppend(a, sep);
  }

  /** The separator " or " upper-cased. */
  lemma UpperOr()
    ensures Strings.ToUpper(" or ") == " OR "
  {
  }

  /** Two types ".a" and ".b" are named "A OR B": upper-cased, without their dots, joined by " or ". */
  lemma TwoTypesText(a: string, b: string)
    requires '.' !in a && '.' !in b
    ensures TypesText(["." + a, "." + b]) == Strings.ToUpper(a) + " OR " + Strings.ToUpper(b)
  {
    var bare := Strings.RemoveAll(Strings.Join(["." + a, "." + b], " or "), '.');
    assert bare == a + " or " + b by {
      BareTwoTypes(a, b, " or ");
    }
    UpperTriple(a, " or ", b);
    UpperOr();
  }

  /** With the default types the error asks for a TXT file. */
  lemma DefaultErrorText()
    ensures UnsupportedTypeError(DefaultAcceptedTypes) == "Unsupported file type. Please upload a " + "TXT" + " file."
  {
    DefaultTypesText();
  }

  /** The outcome of validating one file: no error, or the unsupported-type error. */
  function ValidationError(acceptedTypes: seq<string>, name: string): (r: Option<string>)
    ensures r.None? <==> Accepts(acceptedTypes, name)
    ensures r.Some? ==> r.value == UnsupportedTypeError(acceptedTypes)
  {
    if Accepts(acceptedTypes, name) then None else Some(UnsupportedTypeError(acceptedTypes))
  }

  /** The drop zone's state. */
  class Uploader {
    const acceptedTypes: seq<string>
    var isDragOver: bool
    var error: Option<string>

    /** Mounted with the given types, or the default when none are given; no highlight, no error. */
    constructor (acceptedTypes: Option<seq<string>>)
      ensures this.acceptedTypes == (if acceptedTypes.Some? then acceptedTypes.value else DefaultAcceptedTypes)
      ensures !isDragOver && error == None
    {
      this.acceptedTypes := if acceptedTypes.Some? then acceptedTypes.value else DefaultAcceptedTypes;
      isDragOver := false;
      error := None;
    }

    /** `handleDragEnter`. */
    method DragEnter()
      modifies this`isDragOver
      ensures isDragOver
    {
      isDragOver := true;
    }

    /** `handleDragLeave`. */
    method DragLeave()
      modifies this`isDragOver
      ensures !isDragOver
    {
      isDragOver := false;
    }

    /** `handleDragOver`: switches the highlight on when it is off. */
    method DragOver()
      modifies this`isDragOver
      ensures isDragOver
    {
      if !isDragOver {
        isDragOver := true;
      }
    }

    /** `validateFile`: accepts exactly the files whose extension is listed, and sets or clears the error to match. */
    method ValidateFile(file: UploadedFile) returns (ok: bool)
      modifies this`error
      ensures ok == Accepts(acceptedTypes, file.name)
      ensures error == ValidationError(acceptedTypes, file.name)
    {
      var fileExtension := "." + Strings.ToLower(Strings.AfterLast(file.name, '.'));
      if fileExtension !in acceptedTypes {
        error := Some(UnsupportedTypeError(acceptedTypes));
        return false;
      }
      error := None;
      ok := true;
    }

    /**
     * `handleDrop`: the highlight goes off, and the first dropped file, if any, is validated
     * and handed on when it is accepted. The other files are ignored.
     */
    method HandleDrop(files: seq<UploadedFile>) returns (uploaded: Option<UploadedFile>)
      modifies this`isDragOver, this`error
      ensures !isDragOver
      ensures files == [] ==> uploaded == None && error == old(error)
      ensures files != [] ==> error == ValidationError(acceptedTypes, files[0].name)
      ensures files != [] ==> uploaded == (if Accepts(acceptedTypes, files[0].name) then Some(files[0]) else None)
    {
      isDragOver := false;
      uploaded := None;
      if |files| > 0 {
        var ok := ValidateFile(files[0]);
        if ok {
          uploaded := Some(files[0]);
        }
      }
    }

    /** `handleFileInput`: as a drop, without touching the highlight. */
    method HandleFileInput(files: seq<UploadedFile>) returns (uploaded: Option<UploadedFile>)
      modifies this`error
      ensures files == [] ==> uploaded == None && error == old(error)
      ensures files != [] ==> error == ValidationError(acceptedTypes, files[0].name)
      ensures files != [] ==> uploaded == (if Accepts(acceptedTypes, files[0].name) then Some(files[0]) else None)
    {
      uploaded := None;
      if |files| > 0 {
        var ok := ValidateFile(files[0]);
        if ok {
          uploaded := Some(files[0]);
        }
      }
    }
  }
}
