/** One registration request: a folder to scan, the flags (groups) it is indexed under,
    and the file extensions to consider. Immutable once constructed. */
module CodeInfoSource {

  datatype Source = Source(folderToParse: string, flags: seq<string>, extensions: seq<string>) {

    function GetFolderToParse(): string { folderToParse }

    function GetExtensions(): seq<string> { extensions }

    function GetFlags(): seq<string> { flags }
  }

  /** The PHP constructor; `extensions` defaults to the single extension "php". */
  function NewSource(folderToParse: string, flags: seq<string>, extensions: seq<string> := ["php"]): (s: Source)
    ensures s.GetFolderToParse() == folderToParse
    ensures s.GetFlags() == flags && s.GetExtensions() == extensions
  {
    Source(folderToParse, flags, extensions)
  }

  /** Without an explicit list, a source scans only files with extension "php". */
  lemma DefaultExtensionIsPhp(folderToParse: string, flags: seq<string>)
    ensures NewSource(folderToParse, flags).GetExtensions() == ["php"]
  {
  }

  /** Duplicated flags and extensions survive construction: de-duplication happens only
      when the index consolidates sources per folder. */
  lemma DuplicatesAreKept(folderToParse: string, flag: string, extension: string)
    ensures NewSource(folderToParse, [flag, flag], [extension, extension]).GetFlags() == [flag, flag]
    ensures NewSource(folderToParse, [flag, flag], [extension, extension]).GetExtensions() == [extension, extension]
  {
  }
}
