/**
  The file-name and file-path checks of DSTI_db_interface/file_utilities.py.

  A permitted file name for an export is a non-empty run of ASCII letters,
  digits, '_' and '.', ending in ".csv" in any letter case. A readable file
  path ends, case-sensitively, in the expected extension and exists; whether
  it exists is a question to the file system, so it is an input here.
*/
module FileUtilities {
  import opened Text

  /** One character of the class `[A-Za-z0-9_.]`. */
  predicate IsPermittedChar(c: char) {
    ('A' <= c <= 'Z') || ('a' <= c <= 'z') || ('0' <= c <= '9') || c == '_' || c == '.'
  }

  predicate AllPermitted(s: string) {
    forall i :: 0 <= i < |s| ==> IsPermittedChar(s[i])
  }

  /** `c.lower()` for ASCII letters; every other character is left as it is. */
  function LowerChar(c: char): (r: char)
    ensures 'A' <= c <= 'Z' ==> 'a' <= r <= 'z' && r as int - c as int == 'a' as int - 'A' as int
    ensures !('A' <= c <= 'Z') ==> r == c
  {
    if 'A' <= c <= 'Z' then (c as int - 'A' as int + 'a' as int) as char else c
  }

  function Lower(s: string): (r: string)
    ensures |r| == |s|
    ensures forall i :: 0 <= i < |s| ==> r[i] == LowerChar(s[i])
  {
    seq(|s|, i requires 0 <= i < |s| => LowerChar(s[i]))
  }

  /**
    `re.match(r"^[A-Za-z0-9_.]+$", name)` succeeds: the whole name is one or
    more permitted characters, where `$` also matches just before a final
    line feed.
  */
  predicate CharacterSetMatches(name: string) {
    || (|name| >= 1 && AllPermitted(name))
    || (|name| >= 2 && name[|name| - 1] == '\n' && AllPermitted(name[..|name| - 1]))
  }

  /** is_permitted_filename: the lower-cased name ends with ".csv" and the name matches the character class. */
  predicate IsPermittedFilename(name: string) {
    EndsWith(Lower(name), ".csv") && CharacterSetMatches(name)
  }

  /** The lower-cased name ends with ".csv" exactly when its last four characters are '.', 'c', 's', 'v' in either case. */
  lemma LowerEndsWithCsv(name: string)
    requires |name| >= 4
    ensures EndsWith(Lower(name), ".csv") <==>
      && name[|name| - 4] == '.'
      && name[|name| - 3] in {'c', 'C'}
      && name[|name| - 2] in {'s', 'S'}
      && name[|name| - 1] in {'v', 'V'}
  {
    var n := |name|;
    var tail := Lower(name)[n - 4..];
    assert tail[0] == LowerChar(name[n - 4]) && tail[1] == LowerChar(name[n - 3]);
    assert tail[2] == LowerChar(name[n - 2]) && tail[3] == LowerChar(name[n - 1]);
    assert tail == ".csv" <==> tail[0] == '.' && tail[1] == 'c' && tail[2] == 's' && tail[3] == 'v';
  }

  /**
    A name is permitted exactly when every character is in `[A-Za-z0-9_.]`
    and it ends with '.' and then 'c', 's', 'v', each in either case. The
    line feed that `$` tolerates can never end a name that passes the
    extension test.
  */
  lemma PermittedFilenameIff(name: string)
    ensures IsPermittedFilename(name) <==>
      && AllPermitted(name)
      && |name| >= 4
      && name[|name| - 4] == '.'
      && name[|name| - 3] in {'c', 'C'}
      && name[|name| - 2] in {'s', 'S'}
      && name[|name| - 1] in {'v', 'V'}
  {
    if |name| >= 4 {
      LowerEndsWithCsv(name);
    }
  }

  /** The extension is compared without regard to case, and everything before it must be permitted characters. */
  lemma ExtensionCaseInsensitive(stem: string, extension: string)
    requires |extension| == 4 && Lower(extension) == ".csv"
    ensures IsPermittedFilename(stem + extension) <==> AllPermitted(stem)
  {
    var name := stem + extension;
    var n := |name|;
    assert Lower(extension)[0] == '.' && Lower(extension)[1] == 'c';
    assert Lower(extension)[2] == 's' && Lower(extension)[3] == 'v';
    assert name[n - 4] == extension[0] && name[n - 3] == extension[1];
    assert name[n - 2] == extension[2] && name[n - 1] == extension[3];
    assert AllPermitted(extension);
    PermittedFilenameIff(name);
    if AllPermitted(name) {
      assert forall i :: 0 <= i < |stem| ==> stem[i] == name[i];
    }
  }

  /** A name whose last character is a line feed is refused, although the character-class match alone accepts it. */
  lemma TrailingLineFeedRefused(name: string)
    requires |name| >= 1 && AllPermitted(name)
    ensures CharacterSetMatches(name + "\n")
    ensures !IsPermittedFilename(name + "\n")
  {
    assert (name + "\n")[..|name|] == name;
    PermittedFilenameIff(name + "\n");
  }

  /** The examples the project's tests check with plain ASCII names, with their expected answers. */
  lemma PermittedFilenameExamples()
    ensures IsPermittedFilename("test_54.csv")
    ensures !IsPermittedFilename("test_54.txt")
    ensures !IsPermittedFilename("query results.csv")
    ensures !IsPermittedFilename("my-file-namecsv")
    ensures !IsPermittedFilename("my_file_namecsv")
  {
    PermittedFilenameIff("test_54.csv");
    PermittedFilenameIff("test_54.txt");
    PermittedFilenameIff("my-file-namecsv");
    PermittedFilenameIff("my_file_namecsv");
    assert !IsPermittedChar("query results.csv"[5]);
    PermittedFilenameIff("query results.csv");
  }

  /** A name with a character outside the class is refused, even with the right extension. */
  lemma ForeignCharacterRefused(name: string, i: int)
    requires 0 <= i < |name| && !IsPermittedChar(name[i])
    ensures !IsPermittedFilename(name)
  {
    PermittedFilenameIff(name);
  }

  /** The tests' first two names with an accented letter are refused. */
  lemma AccentedFilenameExamples()
    ensures !IsPermittedFilename("fil\U{E8}namewithaccent1.csv")
    ensures !IsPermittedFilename("filenamewith\U{E0}ccent2.csv")
  {
    ForeignCharacterRefused("fil\U{E8}namewithaccent1.csv", 3);
    ForeignCharacterRefused("filenamewith\U{E0}ccent2.csv", 12);
  }

  /** The tests' third and fourth names with an accented letter are refused. */
  lemma AccentedFilenameExamplesMiddle()
    ensures !IsPermittedFilename("filenamewithacc\U{E9}nt3.csv")
    ensures !IsPermittedFilename("filenamewith\U{E2}ccent4.csv")
  {
    ForeignCharacterRefused("filenamewithacc\U{E9}nt3.csv", 15);
    ForeignCharacterRefused("filenamewith\U{E2}ccent4.csv", 12);
  }

  /** The tests' last two names with an accented letter are refused. */
  lemma AccentedFilenameExamplesLast()
    ensures !IsPermittedFilename("filenamewith\U{F9}ccent5.csv")
    ensures !IsPermittedFilename("fil\U{EA}namewithaccent6.csv")
  {
    ForeignCharacterRefused("filenamewith\U{F9}ccent5.csv", 12);
    ForeignCharacterRefused("fil\U{EA}namewithaccent6.csv", 3);
  }

  /** The extension is_valid_read_filepath expects when the caller names none. */
  const DefaultReadType: string := ".txt"

  /**
    is_valid_read_filepath: the path ends, case-sensitively, with the
    expected extension, and `pathExists` says the path exists.
  */
  predicate IsValidReadFilepath(filepath: string, pathExists: bool, fileType: string) {
    EndsWith(filepath, fileType) && pathExists
  }

  /** A path is readable exactly when it exists and is some text followed by the extension. */
  lemma ValidReadFilepathIff(filepath: string, pathExists: bool, fileType: string)
    ensures IsValidReadFilepath(filepath, pathExists, fileType) <==>
      pathExists && exists stem :: stem + fileType == filepath
  {
    if pathExists && exists stem :: stem + fileType == filepath {
      var stem :| stem + fileType == filepath;
      assert filepath[|filepath| - |fileType|..] == fileType;
    }
    if IsValidReadFilepath(filepath, pathExists, fileType) {
      var stem := filepath[..|filepath| - |fileType|];
      assert stem + fileType == filepath;
    }
  }

  /**
    The default extension: an existing text file is accepted, the same path
    is refused when it does not exist, and the upper-case extension and a CSV
    are refused.
  */
  lemma ReadFilepathExamples()
    ensures IsValidReadFilepath("queries/view.txt", true, DefaultReadType)
    ensures !IsValidReadFilepath("queries/view.txt", false, DefaultReadType)
    ensures !IsValidReadFilepath("queries/view.TXT", true, DefaultReadType)
    ensures !IsValidReadFilepath("queries/view.csv", true, DefaultReadType)
    ensures IsValidReadFilepath("queries/view.csv", true, ".csv")
  {
    assert "queries/view.TXT"[12..] != DefaultReadType by {
      assert "queries/view.TXT"[12..][1] == 'T';
    }
    assert "queries/view.csv"[12..] != DefaultReadType by {
      assert "queries/view.csv"[12..][1] == 'c';
    }
  }
}
