/**
 * Translation lookup (`t`): a dotted key walks the nested catalogue of a
 * language; a missing language or key falls back to English, and a key
 * missing everywhere is answered by the key itself. Named `{placeholders}`
 * are replaced by the supplied arguments.
 */
module Translation {
  import opened Documents

  const DEFAULT_LANGUAGE: string := "en"

  /** A catalogue entry: a translated text, or a section of further entries. */
  datatype Entry = Text(text: string) | Section(entries: map<string, Entry>)

  /** The top-level entries of one language. */
  type Catalogue = map<string, Entry>

  /** All languages' catalogues, by language code. */
  type Table = map<string, Catalogue>

  /** `key.split(".")`: the parts between dots, at least one, none holding a dot. */
  function Split(key: string): (parts: seq<string>)
    ensures |parts| >= 1
    ensures forall i :: 0 <= i < |parts| ==> '.' !in parts[i]
  {
    if key == [] then [""]
    else
      var rest := Split(key[1..]);
      if key[0] == '.' then [""] + rest
      else [[key[0]] + rest[0]] + rest[1..]
  }

  /** `".".join(parts)`. */
  function Join(parts: seq<string>): string
    requires |parts| >= 1
  {
    if |parts| == 1 then parts[0] else parts[0] + "." + Join(parts[1..])
  }

  /** Joining the parts of a key gives the key back. */
  lemma {:induction false} JoinSplit(key: string)
    ensures Join(Split(key)) == key
  {
    if key != [] {
      JoinSplit(key[1..]);
      var rest := Split(key[1..]);
      if key[0] == '.' {
        assert Split(key) == [""] + rest;
        assert Join(Split(key)) == "" + "." + Join(rest);
      } else {
        var parts := [[key[0]] + rest[0]] + rest[1..];
        assert Split(key) == parts;
        if |rest| == 1 {
          assert Join(parts) == [key[0]] + rest[0];
        } else {
          assert parts[1..] == rest[1..];
          assert Join(parts) == [key[0]] + rest[0] + "." + Join(rest[1..]);
          assert Join(rest) == rest[0] + "." + Join(rest[1..]);
        }
      }
    }
  }

  /** Splitting a key whose first part is `head` (dot-free) gives `head` joined onto the rest's first part. */
  lemma {:induction false} SplitAfterPrefix(head: string, tail: string)
    requires '.' !in head
    ensures Split(head + tail) == [head + Split(tail)[0]] + Split(tail)[1..]
  {
    if head != [] {
      assert (head + tail)[1..] == head[1..] + tail;
      assert (head + tail)[0] == head[0];
      SplitAfterPrefix(head[1..], tail);
      assert [head[0]] + (head[1..] + Split(tail)[0]) == head + Split(tail)[0];
    } else {
      var rest := Split(tail);
      assert head + tail == tail;
      assert head + rest[0] == rest[0];
      assert rest == [rest[0]] + rest[1..];
    }
  }

  /** Splitting joined dot-free parts gives the parts back. */
  lemma {:induction false} SplitJoin(parts: seq<string>)
    requires |parts| >= 1
    requires forall i :: 0 <= i < |parts| ==> '.' !in parts[i]
    ensures Split(Join(parts)) == parts
  {
    if |parts| == 1 {
      SplitAfterPrefix(parts[0], "");
      assert parts[0] + "" == parts[0];
    } else {
      SplitJoin(parts[1..]);
      var tail := "." + Join(parts[1..]);
      assert Join(parts) == parts[0] + tail;
      SplitAfterPrefix(parts[0], tail);
      assert tail[1..] == Join(parts[1..]);
      assert Split(tail) == [""] + parts[1..];
      assert parts[0] + "" == parts[0];
      assert parts == [parts[0]] + parts[1..];
    }
  }

  /**
   * Walks `path` through nested sections. A text reached before the path
   * ends, or a section reached at its end, is not a translation.
   */
  function Resolve(entries: Catalogue, path: seq<string>): (r: Option<string>)
    requires |path| >= 1
    ensures r.Some? ==> path[0] in entries
    ensures |path| == 1 ==> (r.Some? <==> path[0] in entries && entries[path[0]].Text?)
    ensures |path| == 1 && r.Some? ==> r.value == entries[path[0]].text
    ensures |path| > 1 && r.Some? ==> entries[path[0]].Section?
    decreases |path|
  {
    if path[0] !in entries then None
    else match entries[path[0]]
      case Text(s) => if |path| == 1 then Some(s) else None
      case Section(children) => if |path| == 1 then None else Resolve(children, path[1..])
  }

  /** The text for `key` in language `lang`, if that language has one. */
  function Lookup(table: Table, lang: string, key: string): (r: Option<string>)
    ensures r.Some? ==> lang in table
    ensures '.' !in key && lang in table && key in table[lang] && table[lang][key].Text? ==>
              r == Some(table[lang][key].text)
  {
    if lang !in table then None
    else if '.' in key then Resolve(table[lang], Split(key))
    else
      SplitJoin([key]);
      Resolve(table[lang], Split(key))
  }

  /** A dotted key `section.rest` resolves to `rest` looked up inside the named section. */
  lemma DottedKeyWalksSection(entries: Catalogue, section: string, rest: string)
    requires '.' !in section
    requires section in entries && entries[section].Section?
    ensures Resolve(entries, Split(section + "." + rest)) == Resolve(entries[section].entries, Split(rest))
  {
    SplitAfterPrefix(section, "." + rest);
    assert ("." + rest)[1..] == rest;
    var after := Split("." + rest);
    assert after == [""] + Split(rest);
    assert after[0] == "" && after[1..] == Split(rest);
    assert section + after[0] == section;
    assert section + "." + rest == section + ("." + rest);
    assert Split(section + "." + rest) == [section] + Split(rest);
  }

  /**
   * The index of the `}` that closes a placeholder opened just before `i`:
   * the first `}` from `i` on, provided no `{` comes before it.
   */
  function PlaceholderEnd(s: string, i: nat): (r: Option<nat>)
    requires i <= |s|
    ensures r.Some? ==> i <= r.value < |s| && s[r.value] == '}'
    ensures r.Some? ==> forall j :: i <= j < r.value ==> s[j] != '{' && s[j] != '}'
    decreases |s| - i
  {
    if i == |s| then None
    else if s[i] == '}' then Some(i)
    else if s[i] == '{' then None
    else PlaceholderEnd(s, i + 1)
  }

  /** A brace-free name followed by `}` closes where the name ends. */
  lemma {:induction false} PlaceholderEndOfName(prefix: string, name: string, suffix: string)
    requires '{' !in name && '}' !in name
    ensures PlaceholderEnd(prefix + name + "}" + suffix, |prefix|) == Some(|prefix| + |name|)
    decreases |name|
  {
    var s := prefix + name + "}" + suffix;
    if name == [] {
      assert s[|prefix|] == '}';
    } else {
      assert s[|prefix|] == name[0];
      assert s == (prefix + [name[0]]) + name[1..] + "}" + suffix;
      PlaceholderEndOfName(prefix + [name[0]], name[1..], suffix);
    }
  }

  /**
   * `str.format(**args)` on named placeholders: each `{name}` whose name is
   * an argument is replaced by that argument's value; any other text,
   * including a placeholder with no matching argument, is kept as written.
   */
  function Format(s: string, args: map<string, string>): (r: string)
    ensures args == map[] ==> r == s
    decreases |s|
  {
    assert s != [] ==> s == [s[0]] + s[1..];
    if s == [] then []
    else if s[0] == '{' then
      match PlaceholderEnd(s, 1)
      case Some(j) =>
        if s[1..j] in args then args[s[1..j]] + Format(s[j + 1..], args)
        else [s[0]] + Format(s[1..], args)
      case None => [s[0]] + Format(s[1..], args)
    else [s[0]] + Format(s[1..], args)
  }

  /** A text without placeholders is answered as it is. */
  lemma {:induction false} FormatPlainText(s: string, args: map<string, string>)
    requires '{' !in s
    ensures Format(s, args) == s
  {
    if s != [] {
      FormatPlainText(s[1..], args);
      assert s == [s[0]] + s[1..];
    }
  }

  /**
   * A placeholder whose name is an argument is replaced by that argument,
   * and the text before it is kept.
   */
  lemma {:induction false} FormatPlaceholder(before: string, name: string, after: string, args: map<string, string>)
    requires '{' !in before
    requires '{' !in name && '}' !in name && name in args
    ensures Format(before + "{" + name + "}" + after, args) == before + args[name] + Format(after, args)
    decreases |before|
  {
    var s := before + "{" + name + "}" + after;
    if before == [] {
      assert s == "{" + name + "}" + after;
      PlaceholderEndOfName("{", name, after);
      assert s[1..|name| + 1] == name;
      assert s[|name| + 2..] == after;
    } else {
      assert s[0] == before[0];
      assert s[1..] == before[1..] + "{" + name + "}" + after;
      FormatPlaceholder(before[1..], name, after, args);
      assert [before[0]] + before[1..] == before;
    }
  }

  /**
   * `t(key, lang, **args)`: the requested language's text, else English's,
   * formatted with `args`; the key itself when neither has one.
   */
  function T(table: Table, key: string, lang: string, args: map<string, string>): (r: string)
    ensures Lookup(table, lang, key).Some? ==> r == Format(Lookup(table, lang, key).value, args)
    ensures Lookup(table, lang, key).None? && Lookup(table, DEFAULT_LANGUAGE, key).Some? ==>
              r == Format(Lookup(table, DEFAULT_LANGUAGE, key).value, args)
    ensures Lookup(table, lang, key).None? && Lookup(table, DEFAULT_LANGUAGE, key).None? ==> r == key
  {
    match Lookup(table, lang, key)
    case Some(s) => Format(s, args)
    case None =>
      match Lookup(table, DEFAULT_LANGUAGE, key)
      case Some(s) => Format(s, args)
      case None => key
  }

  /** An unknown language is answered as English is. */
  lemma UnknownLanguageIsEnglish(table: Table, key: string, lang: string, args: map<string, string>)
    requires lang !in table
    ensures T(table, key, lang, args) == T(table, key, DEFAULT_LANGUAGE, args)
  {
  }

  /** A key missing from the requested language and from English is answered by the key itself. */
  lemma MissingKeyIsKey(table: Table, key: string, lang: string, args: map<string, string>)
    requires Lookup(table, lang, key).None? && Lookup(table, DEFAULT_LANGUAGE, key).None?
    ensures T(table, key, lang, args) == key
  {
  }

  /** A plain key whose text has no placeholders is answered with that text. */
  lemma PlainKey(table: Table, key: string, lang: string, text: string, args: map<string, string>)
    requires '.' !in key && '{' !in text
    requires lang in table && key in table[lang] && table[lang][key] == Text(text)
    ensures T(table, key, lang, args) == text
  {
    SplitJoin([key]);
    FormatPlainText(text, args);
  }

  /** A two-part key `section.name` is answered with the text stored under the name inside the section. */
  lemma NestedKey(table: Table, section: string, name: string, lang: string, text: string, args: map<string, string>)
    requires '.' !in section && '.' !in name && '{' !in text
    requires lang in table && section in table[lang] && table[lang][section].Section?
    requires name in table[lang][section].entries && table[lang][section].entries[name] == Text(text)
    ensures T(table, section + "." + name, lang, args) == text
  {
    DottedKeyWalksSection(table[lang], section, name);
    SplitJoin([name]);
    FormatPlainText(text, args);
  }

  /** A key the requested language lacks but English has is answered in English. */
  lemma MissingTranslationIsEnglish(table: Table, key: string, lang: string, args: map<string, string>)
    requires Lookup(table, lang, key).None? && Lookup(table, DEFAULT_LANGUAGE, key).Some?
    ensures T(table, key, lang, args) == Format(Lookup(table, DEFAULT_LANGUAGE, key).value, args)
  {
  }

  /** English and Russian catalogues with a plain, a nested and a formatted entry. */
  function SampleTable(): Table
  {
    map[
      "en" := map[
        "welcome" := Text("Welcome"),
        "buttons" := Section(map["start" := Text("Start"), "help" := Text("Help")]),
        "formatted" := Text("Hello, {name}!")],
      "ru" := map[
        "welcome" := Text("Добро пожаловать"),
        "buttons" := Section(map["start" := Text("Старт"), "help" := Text("Помощь")]),
        "formatted" := Text("Привет, {name}!")]]
  }

  /** A plain key of the sample catalogues, in English. */
  lemma SampleWelcomeEnglish()
    ensures T(SampleTable(), "welcome", "en", map[]) == "Welcome"
  {
    PlainKey(SampleTable(), "welcome", "en", "Welcome", map[]);
  }

  /** A plain key of the sample catalogues, in Russian. */
  lemma SampleWelcomeRussian()
    ensures T(SampleTable(), "welcome", "ru", map[]) == "Добро пожаловать"
  {
    PlainKey(SampleTable(), "welcome", "ru", "Добро пожаловать", map[]);
  }

  /** A language without a catalogue is answered in English. */
  lemma SampleUnknownLanguage()
    ensures T(SampleTable(), "welcome", "fr", map[]) == "Welcome"
  {
    UnknownLanguageIsEnglish(SampleTable(), "welcome", "fr", map[]);
    SampleWelcomeEnglish();
  }

  /** A nested key of the sample catalogues, in English. */
  lemma SampleNestedEnglish()
    ensures T(SampleTable(), "buttons.start", "en", map[]) == "Start"
  {
    assert "buttons" + "." + "start" == "buttons.start";
    NestedKey(SampleTable(), "buttons", "start", "en", "Start", map[]);
  }

  /** A nested key of the sample catalogues, in Russian. */
  lemma SampleNestedRussian()
    ensures T(SampleTable(), "buttons.help", "ru", map[]) == "Помощь"
  {
    assert "buttons" + "." + "help" == "buttons.help";
    NestedKey(SampleTable(), "buttons", "help", "ru", "Помощь", map[]);
  }

  lemma SampleFormattedLookup()
    ensures Lookup(SampleTable(), "en", "formatted") == Some("Hello, {name}!")
  {
    SplitJoin(["formatted"]);
  }

  lemma SampleFormatName()
    ensures Format("Hello, {name}!", map["name" := "John"]) == "Hello, John!"
  {
    var args := map["name" := "John"];
    SampleFormatPieces(args);
    FormatPlainText("!", args);
  }

  lemma SampleFormatPieces(args: map<string, string>)
    requires "name" in args
    ensures Format("Hello, {name}!", args) == "Hello, " + args["name"] + Format("!", args)
  {
    assert "Hello, " + "{" + "name" + "}" + "!" == "Hello, {name}!";
    FormatPlaceholder("Hello, ", "name", "!", args);
  }

  /** The formatted entry of the sample catalogues, with its argument supplied. */
  lemma SampleFormatted()
    ensures T(SampleTable(), "formatted", "en", map["name" := "John"]) == "Hello, John!"
  {
    SampleFormattedLookup();
    SampleFormatName();
  }

  /** A key no sample catalogue has is answered by the key. */
  lemma SampleMissingKey()
    ensures T(SampleTable(), "nonexistent", "ru", map[]) == "nonexistent"
  {
    SplitJoin(["nonexistent"]);
  }
}
