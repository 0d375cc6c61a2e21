/** `filename_with_extention` (src/util.rs): a file name given a new
    extension. */
module Util {
  import opened Wrappers
  import opened Strs

  predicate IsDot(c: char) { c == '.' }

  /** The text after the last `.` of the name, and any `.` in the
      extension, decide the result: everything up to the last `.` (or the
      whole name without one), then `.` and the extension. */
  function FilenameWithExtension(filename: string, ext: string): (r: string)
    ensures EndsWith(r, "." + ext)
    ensures '.' !in filename ==> r == filename + "." + ext
    ensures var stem := r[..|r| - |ext| - 1];
      StartsWith(filename, stem)
      && (stem == filename || (filename[|stem|] == '.' && '.' !in filename[|stem| + 1..]))
  {
    var pos := RFindWhere(filename, IsDot);
    var stem := if pos.Some? then filename[..pos.value] else filename;
    var r := stem + "." + ext;
    assert r[..|r| - |ext| - 1] == stem;
    assert r[|r| - |"." + ext|..] == "." + ext;
    r
  }

  /** Giving a name the same extension twice gives it once, when the
      extension holds no `.`. */
  lemma {:induction false} FilenameWithExtensionIdempotent(filename: string, ext: string)
    requires '.' !in ext
    ensures FilenameWithExtension(FilenameWithExtension(filename, ext), ext) == FilenameWithExtension(filename, ext)
  {
    var once := FilenameWithExtension(filename, ext);
    var stem := once[..|once| - |ext| - 1];
    assert once == stem + "." + ext by {
      assert once[|once| - |ext| - 1..] == "." + ext;
    }
    var pos := RFindWhere(once, IsDot);
    assert pos == Some(|stem|) by {
      assert IsDot(once[|stem|]);
      assert forall j :: |stem| < j < |once| ==> once[j] == ext[j - |stem| - 1];
      assert RFindWhere(once, IsDot).Some? && RFindWhere(once, IsDot).value >= |stem|;
    }
    assert once[..|stem|] == stem;
  }
}
