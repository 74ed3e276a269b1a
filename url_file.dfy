/**
 * The line scan of `get_icon_from_url_file` (kept in the source as documentation of
 * the `.url` format and not called): the icon path is the rest of the first line that
 * starts with `IconFile=`.
 */
module UrlFile {
  import opened Types

  const IconFileKey: string := "IconFile="

  /** `line.strip_prefix("IconFile=")` succeeds. */
  predicate IsIconFileLine(line: string)
  {
    |IconFileKey| <= |line| && line[..|IconFileKey|] == IconFileKey
  }

  /** Scans the lines in order and stops at the first `IconFile=` line. */
  method IconFileEntry(lines: seq<string>) returns (r: Option<string>)
    ensures r.None? <==> forall i :: 0 <= i < |lines| ==> !IsIconFileLine(lines[i])
    ensures r.Some? ==>
      exists i :: 0 <= i < |lines| && IsIconFileLine(lines[i]) && r.value == lines[i][|IconFileKey|..] &&
                  forall j :: 0 <= j < i ==> !IsIconFileLine(lines[j])
  {
    r := None;
    var i := 0;
    while i < |lines|
      invariant i <= |lines|
      invariant forall j :: 0 <= j < i ==> !IsIconFileLine(lines[j])
    {
      if IsIconFileLine(lines[i]) {
        r := Some(lines[i][|IconFileKey|..]);
        break;
      }
      i := i + 1;
    }
  }
}
