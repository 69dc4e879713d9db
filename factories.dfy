/**
 * The converter's file factories: ExportSourceFactory
 * (export_source_factory.py), ImportSourceFactory (import_source_factory.py)
 * and NewProjectFactory (new_project_factory.py). Each picks the class of
 * the file to read from the source path; the file classes are values that
 * carry their SUFFIX and EXTENSION.
 */
module Factories {
  import opened Wrappers
  import opened Strings

  /** A file class as the factories see it. */
  datatype FileClass = FileClass(name: string, suffix: Option<string>, extension: string)

  /** What make_file_objects builds: the source object (by class) and the path of the target, if any. */
  datatype SourceKind = Listed(fileClass: FileClass) | Outline | Import
  datatype Made = Made(source: SourceKind, sourcePath: string, targetPath: Option<string>)

  // ----- os.path.splitext -----

  /** The last index of c in s. */
  function LastIndex(s: string, c: char): (r: Option<nat>)
    ensures r.None? <==> c !in s
    ensures r.Some? ==> r.value < |s| && s[r.value] == c && c !in s[r.value + 1..]
  {
    if s == [] then None
    else if s[|s| - 1] == c then Some(|s| - 1)
    else
      var r := LastIndex(s[..|s| - 1], c);
      assert r.Some? ==> s[r.value + 1..] == s[..|s| - 1][r.value + 1..] + [s[|s| - 1]];
      r
  }

  predicate AllDots(s: string)
  {
    forall i :: 0 <= i < |s| ==> s[i] == '.'
  }

  /**
   * os.path.splitext with '/' as separator: the extension runs from the last
   * dot of the file name, unless that dot only follows dots.
   */
  function SplitExt(p: string): (r: (string, string))
    ensures r.0 + r.1 == p
    ensures r.1 == [] || (r.1[0] == '.' && '.' !in r.1[1..] && '/' !in r.1)
  {
    var nameStart := match LastIndex(p, '/') case None => 0 case Some(i) => i + 1;
    match LastIndex(p, '.')
    case None => (p, [])
    case Some(d) =>
      if nameStart <= d && !AllDots(p[nameStart..d]) then
        assert p[..d] + p[d..] == p;
        (p[..d], p[d..])
      else
        assert p + [] == p;
        (p, [])
  }

  // ----- the class searches -----

  /** The index of the first class whose EXTENSION is ext. */
  function FirstWithExtension(classes: seq<FileClass>, ext: string): (r: Option<nat>)
    ensures r.Some? ==>
              && r.value < |classes| && classes[r.value].extension == ext
              && forall j :: 0 <= j < r.value ==> classes[j].extension != ext
    ensures r.None? <==> forall j :: 0 <= j < |classes| ==> classes[j].extension != ext
  {
    if classes == [] then None
    else if classes[0].extension == ext then Some(0)
    else match FirstWithExtension(classes[1..], ext)
      case None => None
      case Some(i) => Some(i + 1)
  }

  /** A class with a SUFFIX whose SUFFIX and EXTENSION together end the path. */
  predicate SuffixMatches(c: FileClass, path: string)
  {
    c.suffix.Some? && EndsWith(path, c.suffix.value + c.extension)
  }

  /** The index of the first class that SuffixMatches the path; classes without SUFFIX are skipped. */
  function FirstWithSuffix(classes: seq<FileClass>, path: string): (r: Option<nat>)
    ensures r.Some? ==>
              && r.value < |classes| && SuffixMatches(classes[r.value], path)
              && forall j :: 0 <= j < r.value ==> !SuffixMatches(classes[j], path)
    ensures r.None? <==> forall j :: 0 <= j < |classes| ==> !SuffixMatches(classes[j], path)
  {
    if classes == [] then None
    else if SuffixMatches(classes[0], path) then Some(0)
    else match FirstWithSuffix(classes[1..], path)
      case None => None
      case Some(i) => Some(i + 1)
  }

  function NotSupported(path: string): string
  {
    "File type is not supported: \"" + path + "\"."
  }

  const NOT_WRITTEN_BACK := "This document is not meant to be written back."

  function CannotRead(path: string): string
  {
    "Cannot read file: \"" + path + "\"."
  }

  /** ExportSourceFactory.make_file_objects: the first class whose EXTENSION is the path's extension. */
  function ExportSource(classes: seq<FileClass>, path: string): (r: Result<Made>)
    ensures r.Ok? <==> exists j :: 0 <= j < |classes| && classes[j].extension == SplitExt(path).1
    ensures r.Ok? ==>
              && r.value.targetPath.None? && r.value.sourcePath == path && r.value.source.Listed?
              && exists j :: 0 <= j < |classes| && classes[j] == r.value.source.fileClass
                     && classes[j].extension == SplitExt(path).1
                     && forall k :: 0 <= k < j ==> classes[k].extension != SplitExt(path).1
    ensures r.Err? ==> r.error == NotSupported(path)
  {
    match FirstWithExtension(classes, SplitExt(path).1)
    case Some(i) => Ok(Made(Listed(classes[i]), path, None))
    case None => Err(NotSupported(path))
  }

  /** ImportSourceFactory.make_file_objects: the first class whose SUFFIX and EXTENSION end the path. */
  function ImportSource(classes: seq<FileClass>, path: string): (r: Result<Made>)
    ensures r.Ok? <==> exists j :: 0 <= j < |classes| && SuffixMatches(classes[j], path)
    ensures r.Ok? ==>
              && r.value.targetPath.None? && r.value.sourcePath == path && r.value.source.Listed?
              && exists j :: 0 <= j < |classes| && classes[j] == r.value.source.fileClass && SuffixMatches(classes[j], path)
                     && forall k :: 0 <= k < j ==> !SuffixMatches(classes[k], path)
    ensures r.Err? ==> r.error == NOT_WRITTEN_BACK
  {
    match FirstWithSuffix(classes, path)
    case Some(i) => Ok(Made(Listed(classes[i]), path, None))
    case None => Err(NOT_WRITTEN_BACK)
  }

  /** A class without SUFFIX is never chosen by the import factory, whatever its EXTENSION. */
  lemma NoSuffixNeverImported(classes: seq<FileClass>, path: string)
    requires ImportSource(classes, path).Ok?
    ensures ImportSource(classes, path).value.source.fileClass.suffix.Some?
  {
  }

  // ----- NewProjectFactory -----

  /** Some suffix in the list ends name. */
  function EndsWithAny(name: string, suffixes: seq<string>): (r: bool)
    ensures r <==> exists i :: 0 <= i < |suffixes| && EndsWith(name, suffixes[i])
  {
    if suffixes == [] then false
    else if EndsWith(name, suffixes[0]) then true
    else
      var r := EndsWithAny(name, suffixes[1..]);
      assert forall i :: 1 <= i < |suffixes| ==> suffixes[i] == suffixes[1..][i - 1];
      r
  }

  /** _canImport: the path without its extension ends with none of the DO_NOT_IMPORT suffixes. */
  function CanImport(doNotImport: seq<string>, path: string): (r: bool)
    ensures !r <==> exists i :: 0 <= i < |doNotImport| && EndsWith(SplitExt(path).0, doNotImport[i])
  {
    !EndsWithAny(SplitExt(path).0, doNotImport)
  }

  /**
   * NewProjectFactory.make_file_objects. doNotImport is DO_NOT_IMPORT (the
   * cross-reference and brief-synopsis suffixes), projectExtension the
   * project file's EXTENSION, and content what reading a '.md' source gives
   * (None when it cannot be read).
   */
  function NewProject(classes: seq<FileClass>, doNotImport: seq<string>, projectExtension: string, path: string,
                      content: Option<string>): (r: Result<Made>)
    ensures r.Err? <==>
              || !CanImport(doNotImport, path)
              || (EndsWith(path, ".md") && content.None?)
              || (!EndsWith(path, ".md") && forall j :: 0 <= j < |classes| ==> !SuffixMatches(classes[j], path))
    ensures r.Ok? ==> r.value.sourcePath == path && r.value.targetPath == Some(SplitExt(path).0 + projectExtension)
    ensures r.Ok? && EndsWith(path, ".md") ==>
              && (r.value.source == Outline <==> Contains(content.value, "### "))
              && (r.value.source == Import <==> !Contains(content.value, "### "))
    ensures r.Ok? && !EndsWith(path, ".md") ==>
              && r.value.source.Listed?
              && exists j :: 0 <= j < |classes| && classes[j] == r.value.source.fileClass && SuffixMatches(classes[j], path)
                     && forall k :: 0 <= k < j ==> !SuffixMatches(classes[k], path)
  {
    if !CanImport(doNotImport, path) then Err(NOT_WRITTEN_BACK)
    else
      var target := SplitExt(path).0 + projectExtension;
      if EndsWith(path, ".md") then
        match content
        case None => Err(CannotRead(path))
        case Some(c) => Ok(Made(if Contains(c, "### ") then Outline else Import, path, Some(target)))
      else
        match FirstWithSuffix(classes, path)
        case Some(i) => Ok(Made(Listed(classes[i]), path, Some(target)))
        case None => Err(NotSupported(path))
  }

  /** A path that must not be imported is refused before the file is read: its content does not matter. */
  lemma RefusedBeforeReading(classes: seq<FileClass>, doNotImport: seq<string>, projectExtension: string,
                             path: string, c1: Option<string>, c2: Option<string>)
    requires !CanImport(doNotImport, path)
    ensures NewProject(classes, doNotImport, projectExtension, path, c1)
         == NewProject(classes, doNotImport, projectExtension, path, c2)
         == Err(NOT_WRITTEN_BACK)
  {
  }

  /** The target lies beside the source: same path, the project extension instead of the source's. */
  lemma TargetBesideSource(classes: seq<FileClass>, doNotImport: seq<string>, projectExtension: string,
                           path: string, content: Option<string>)
    requires NewProject(classes, doNotImport, projectExtension, path, content).Ok?
    ensures var t := NewProject(classes, doNotImport, projectExtension, path, content).value.targetPath.value;
      t + SplitExt(path).1 == SplitExt(path).0 + projectExtension + SplitExt(path).1
      && path == SplitExt(path).0 + SplitExt(path).1
  {
  }
}
