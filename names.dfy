/** Document names: the page title is cut to a per-category length, every
    character of a fixed forbidden set is replaced, and a category suffix and
    the record id are appended (src/hunchly.ts, lines 114-115 and 152-153).
    Selector labels are sanitised the same way with a larger set (line 242). */
module Names {
  import opened Strings

  datatype Option<T> = None | Some(value: T)

  /** The two kinds of document built from records: notes and captioned images. */
  datatype Category = NotesCategory | PhotosCategory

  /** The characters replaced by `_` in a title. */
  const TITLE_FORBIDDEN: set<char> :=
    {'&', '/', '\\', '#', ',', '+', '(', ')', '$', '~', '%', '.', '\'', '"', ':', '*', '?', '<', '>', '{', '}', ' '}

  /** The characters replaced by `-` in a selector label: those of a title and `=`. */
  const LABEL_FORBIDDEN: set<char> := TITLE_FORBIDDEN + {'='}

  /** `s` with every character of `forbidden` replaced by `rep`. */
  function Sanitise(s: string, forbidden: set<char>, rep: char): string
    decreases |s|
  {
    if s == [] then [] else [if s[0] in forbidden then rep else s[0]] + Sanitise(s[1..], forbidden, rep)
  }

  lemma {:induction false} SanitisePointwise(s: string, forbidden: set<char>, rep: char)
    ensures |Sanitise(s, forbidden, rep)| == |s|
    ensures forall i :: 0 <= i < |s| ==>
      Sanitise(s, forbidden, rep)[i] == if s[i] in forbidden then rep else s[i]
    decreases |s|
  {
    if s != [] {
      SanitisePointwise(s[1..], forbidden, rep);
    }
  }

  /** Sanitising is idempotent whenever the replacement is itself allowed. */
  lemma SanitiseIdempotent(s: string, forbidden: set<char>, rep: char)
    requires rep !in forbidden
    ensures Sanitise(Sanitise(s, forbidden, rep), forbidden, rep) == Sanitise(s, forbidden, rep)
  {
    var once := Sanitise(s, forbidden, rep);
    SanitisePointwise(s, forbidden, rep);
    SanitisePointwise(once, forbidden, rep);
  }

  /** The first `n` characters of `s` (`s.substring(0, n)`). */
  function Prefix(s: string, n: nat): string {
    if |s| <= n then s else s[..n]
  }

  function MaxTitle(c: Category): nat {
    match c
    case NotesCategory => 65
    case PhotosCategory => 50
  }

  function Suffix(c: Category): string {
    match c
    case NotesCategory => "-notes-"
    case PhotosCategory => "-captioned-image-"
  }

  /** The title part of a document name. */
  function SanitiseTitle(title: string, max: nat): string {
    Sanitise(Prefix(title, max), TITLE_FORBIDDEN, '_')
  }

  /** A selector label as it appears in a `#` tag. */
  function SanitiseLabel(name: string): string {
    Sanitise(name, LABEL_FORBIDDEN, '-')
  }

  /** The sanitised title keeps at most `max` characters, holds no forbidden
      character, keeps every allowed character in place and puts `_` where a
      forbidden one was. */
  lemma SanitisedTitleShape(title: string, max: nat)
    ensures |SanitiseTitle(title, max)| == if |title| <= max then |title| else max
    ensures forall i :: 0 <= i < |SanitiseTitle(title, max)| ==> SanitiseTitle(title, max)[i] !in TITLE_FORBIDDEN
    ensures forall i :: 0 <= i < |SanitiseTitle(title, max)| ==>
      SanitiseTitle(title, max)[i] == if title[i] in TITLE_FORBIDDEN then '_' else title[i]
  {
    SanitisePointwise(Prefix(title, max), TITLE_FORBIDDEN, '_');
  }

  lemma SanitiseTitleIdempotent(title: string, max: nat)
    ensures SanitiseTitle(SanitiseTitle(title, max), max) == SanitiseTitle(title, max)
  {
    var once := SanitiseTitle(title, max);
    SanitisedTitleShape(title, max);
    assert Prefix(once, max) == once;
    SanitiseIdempotent(Prefix(title, max), TITLE_FORBIDDEN, '_');
  }

  /** A selector label keeps its length, holds no character of the label set
      and keeps every allowed character in place. */
  lemma SanitisedLabelShape(name: string)
    ensures |SanitiseLabel(name)| == |name|
    ensures forall i :: 0 <= i < |name| ==> SanitiseLabel(name)[i] !in LABEL_FORBIDDEN
    ensures forall i :: 0 <= i < |name| ==>
      SanitiseLabel(name)[i] == if name[i] in LABEL_FORBIDDEN then '-' else name[i]
  {
    SanitisePointwise(name, LABEL_FORBIDDEN, '-');
  }

  /** `<title><suffix><id>.md`, the name given to a document (lines 115/137, 153/177). */
  function FileName(c: Category, title: string, key: int): string {
    title + Suffix(c) + IntToString(key) + ".md"
  }

  /** The name of the document a record of category `c` with id `key` creates for a page titled `pageTitle`. */
  function DocumentName(c: Category, pageTitle: string, key: int): string {
    FileName(c, SanitiseTitle(pageTitle, MaxTitle(c)), key)
  }

  datatype NameParts = NameParts(category: Category, title: string, key: int)

  /** The name without its `.md` extension. */
  function StripExtension(name: string): Option<string> {
    if EndsWith(name, ".md") then Some(name[..|name| - 3]) else None
  }

  /** Splits `<head><id>` into the head and the id: the trailing digit run, and a
      `-` sign when the character before it is a second `-`. */
  function SplitKey(stem: string): Option<(string, int)> {
    var digits := TrailingDigits(stem);
    if digits == [] then None else Some(KeyOf(stem[..|stem| - |digits|], digits))
  }

  /** The head and id read from the text before a trailing digit run and the
      run itself: a `-` doubled in front of the digits is a minus sign. */
  function KeyOf(rest: string, digits: string): (string, int) {
    if |rest| >= 2 && rest[|rest| - 1] == '-' && rest[|rest| - 2] == '-' then (rest[..|rest| - 1], -DigitsValue(digits))
    else (rest, DigitsValue(digits))
  }

  /** Splits `<title><suffix>` into the category the suffix names and the title. */
  function SplitCategory(head: string): Option<(Category, string)> {
    if EndsWith(head, Suffix(NotesCategory)) then
      Some((NotesCategory, head[..|head| - |Suffix(NotesCategory)|]))
    else if EndsWith(head, Suffix(PhotosCategory)) then
      Some((PhotosCategory, head[..|head| - |Suffix(PhotosCategory)|]))
    else None
  }

  /** Reads a document name back into its category, title part and id, from the
      right: the `.md` extension, the id, then the category suffix. */
  function ParseFileName(name: string): Option<NameParts> {
    match StripExtension(name)
    case None => None
    case Some(stem) =>
      match SplitKey(stem)
      case None => None
      case Some((head, key)) =>
        match SplitCategory(head)
        case None => None
        case Some((c, title)) => Some(NameParts(c, title, key))
  }

  lemma StripExtensionRoundTrip(stem: string)
    ensures StripExtension(stem + ".md") == Some(stem)
  {
    var name := stem + ".md";
    assert name[|name| - 3..] == ".md";
    assert name[..|name| - 3] == stem;
  }

  /** `SplitKey` on a digit run placed after a text that does not end in a digit. */
  lemma SplitKeyAfter(rest: string, ds: string)
    requires rest == [] || !IsDigit(rest[|rest| - 1])
    requires ds != [] && AllDigits(ds)
    ensures SplitKey(rest + ds) == Some(KeyOf(rest, ds))
  {
    var stem := rest + ds;
    TrailingDigitsAfter(rest, ds);
    assert stem[..|stem| - |ds|] == rest;
    assert SplitKey(stem) == Some(KeyOf(rest, ds));
  }

  lemma SplitKeyNonNegative(head: string, n: nat)
    requires |head| >= 2 && head[|head| - 1] == '-' && head[|head| - 2] != '-'
    ensures SplitKey(head + NatToString(n)) == Some((head, n as int))
  {
    SplitKeyAfter(head, NatToString(n));
    NatToStringRoundTrip(n);
  }

  /** A doubled `-` before the digits reads as a minus sign. */
  lemma SplitKeyAfterDash(head: string, ds: string, value: int)
    requires |head| >= 2 && head[|head| - 1] == '-'
    requires ds != [] && AllDigits(ds) && DigitsValue(ds) == value
    ensures SplitKey((head + "-") + ds) == Some((head, -value))
  {
    var pre := head + "-";
    assert pre[|pre| - 1] == '-' && pre[|pre| - 2] == '-';
    assert pre[..|pre| - 1] == head;
    SplitKeyAfter(pre, ds);
  }

  lemma SplitKeyNegative(head: string, n: nat)
    requires |head| >= 2 && head[|head| - 1] == '-'
    ensures SplitKey((head + "-") + NatToString(n)) == Some((head, -(n as int)))
  {
    NatToStringRoundTrip(n);
    SplitKeyAfterDash(head, NatToString(n), n);
  }

  /** A head ending in `-` and not in `--` splits back off any id appended to it. */
  lemma SplitKeyRoundTrip(head: string, key: int)
    requires |head| >= 2 && head[|head| - 1] == '-' && head[|head| - 2] != '-'
    ensures SplitKey(head + IntToString(key)) == Some((head, key))
  {
    if key < 0 {
      var n: nat := -key;
      var digits := NatToString(n);
      assert IntToString(key) == "-" + digits;
      assert head + ("-" + digits) == (head + "-") + digits;
      SplitKeyNegative(head, n);
    } else {
      SplitKeyNonNegative(head, key);
    }
  }

  lemma SplitCategoryRoundTrip(c: Category, title: string)
    ensures SplitCategory(title + Suffix(c)) == Some((c, title))
  {
    var n := title + Suffix(NotesCategory);
    assert n[|n| - 7..] == Suffix(NotesCategory);
    assert n[..|n| - 7] == title;
    var p := title + Suffix(PhotosCategory);
    assert p[|p| - 17..] == Suffix(PhotosCategory);
    assert p[..|p| - 17] == title;
    assert p[|p| - 7..][1] == 'i';
  }

  /** Every document name reads back to the category, title and id it was made from. */
  lemma FileNameRoundTrip(c: Category, title: string, key: int)
    ensures ParseFileName(FileName(c, title, key)) == Some(NameParts(c, title, key))
  {
    var head := title + Suffix(c);
    var stem := head + IntToString(key);
    assert FileName(c, title, key) == stem + ".md";
    StripExtensionRoundTrip(stem);
    SplitKeyRoundTrip(head, key);
    SplitCategoryRoundTrip(c, title);
  }

  /** Two document names are equal only if category, title part and id are. */
  lemma FileNameInjective(c1: Category, t1: string, k1: int, c2: Category, t2: string, k2: int)
    requires FileName(c1, t1, k1) == FileName(c2, t2, k2)
    ensures c1 == c2 && t1 == t2 && k1 == k2
  {
    FileNameRoundTrip(c1, t1, k1);
    FileNameRoundTrip(c2, t2, k2);
  }

  /** Records with different ids get different document names, whatever their titles. */
  lemma DocumentNamesDistinct(c1: Category, title1: string, k1: int, c2: Category, title2: string, k2: int)
    requires k1 != k2 || c1 != c2
    ensures DocumentName(c1, title1, k1) != DocumentName(c2, title2, k2)
  {
    if DocumentName(c1, title1, k1) == DocumentName(c2, title2, k2) {
      FileNameInjective(c1, SanitiseTitle(title1, MaxTitle(c1)), k1, c2, SanitiseTitle(title2, MaxTitle(c2)), k2);
    }
  }

  /** A document name holds no `/` and no `.` before its extension. */
  lemma DocumentNameCharacters(c: Category, pageTitle: string, key: int)
    ensures var stem := SanitiseTitle(pageTitle, MaxTitle(c)) + Suffix(c) + IntToString(key);
      && DocumentName(c, pageTitle, key) == stem + ".md"
      && (forall i :: 0 <= i < |stem| ==> stem[i] != '.' && stem[i] != '/')
  {
    var t := SanitiseTitle(pageTitle, MaxTitle(c));
    SanitisedTitleShape(pageTitle, MaxTitle(c));
    var digits := IntToString(key);
    assert forall i :: 0 <= i < |digits| ==> digits[i] == '-' || IsDigit(digits[i]);
    var suffix := Suffix(c);
    assert forall i :: 0 <= i < |suffix| ==> suffix[i] != '.' && suffix[i] != '/' by {
      match c
      case NotesCategory =>
      case PhotosCategory =>
    }
    NoDotOrSlash(t, suffix, digits);
  }

  lemma NoDotOrSlash(a: string, b: string, d: string)
    requires forall i :: 0 <= i < |a| ==> a[i] != '.' && a[i] != '/'
    requires forall i :: 0 <= i < |b| ==> b[i] != '.' && b[i] != '/'
    requires forall i :: 0 <= i < |d| ==> d[i] != '.' && d[i] != '/'
    ensures forall i :: 0 <= i < |a + b + d| ==> (a + b + d)[i] != '.' && (a + b + d)[i] != '/'
  {
    forall i | 0 <= i < |a + b + d|
      ensures (a + b + d)[i] != '.' && (a + b + d)[i] != '/'
    {
      if i < |a| {
        assert (a + b + d)[i] == a[i];
      } else if i < |a| + |b| {
        assert (a + b + d)[i] == b[i - |a|];
      } else {
        assert (a + b + d)[i] == d[i - |a| - |b|];
      }
    }
  }
}
