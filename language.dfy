/** contexts/LanguageContext.tsx: the current language, translation lookup by a
    dot-separated key with the key itself as fallback, and placeholder substitution. */
module Language {
  import opened Optional
  import opened Strings

  datatype Lang = En | Ja

  /** A node of a translation table (the locale JSON): a text or an object of children. */
  datatype Entry = Leaf(text: string) | Branch(children: map<string, Entry>)

  /** JavaScript truthiness of a table node: an object always, a string when non-empty. */
  predicate Truthy(e: Entry) {
    e.Branch? || e.text != ""
  }

  /** One step of the lookup loop: `result && result[k] !== undefined`. */
  function Child(e: Entry, k: string): Option<Entry> {
    if Truthy(e) && e.Branch? && k in e.children then Some(e.children[k]) else None
  }

  /** Descends the table one segment per step; `None` when a segment is missing. */
  function Descend(e: Entry, path: seq<string>): Option<Entry>
    decreases |path|
  {
    if path == [] then Some(e)
    else match Child(e, path[0])
      case None => None
      case Some(c) => Descend(c, path[1..])
  }

  /** What `t(key)` returns: the node reached, or the key itself. */
  function Translate(table: Entry, key: string): Entry {
    match Descend(table, Split(key, '.'))
    case Some(e) => e
    case None => Leaf(key)
  }

  /** A missing key gives the key; a key that is present gives the stored node. */
  lemma TranslateFallback(table: Entry, key: string)
    ensures Descend(table, Split(key, '.')).None? ==> Translate(table, key) == Leaf(key)
    ensures Descend(table, Split(key, '.')).Some? ==>
      Translate(table, key) == Descend(table, Split(key, '.')).value
  {
  }

  /** `t(k) || fallback` falls back exactly when the key resolves to a stored empty
      string, or when the key is itself empty and missing. */
  lemma {:induction false} FallbackOnlyOnEmpty(table: Entry, key: string)
    ensures !Truthy(Translate(table, key)) <==>
      Descend(table, Split(key, '.')) == Some(Leaf("")) ||
      (Descend(table, Split(key, '.')).None? && key == "")
  {
    match Descend(table, Split(key, '.'))
    case None =>
    case Some(e) =>
  }

  /** Where a text shown by a component comes from: a translation key, a key with a
      `|| fallback` literal, a literal, or `formatMessage` of a key with values. */
  datatype Message =
    | Key(key: string)
    | KeyOr(key: string, fallback: string)
    | Literal(text: string)
    | Formatted(key: string, values: seq<(string, string)>)

  /** The node a message shows under a table; `None` when `formatMessage` throws. */
  function Resolve(table: Entry, m: Message): (r: Option<Entry>)
    ensures !m.Formatted? ==> r.Some?
    ensures m.KeyOr? && r != Some(Translate(table, m.key)) ==>
      r == Some(Leaf(m.fallback)) && !Truthy(Translate(table, m.key))
  {
    match m
    case Key(k) => Some(Translate(table, k))
    case KeyOr(k, fallback) =>
      var e := Translate(table, k);
      if Truthy(e) then Some(e) else Some(Leaf(fallback))
    case Literal(text) => Some(Leaf(text))
    case Formatted(k, values) => Substitute(Translate(table, k), values)
  }

  /** The placeholder that `formatMessage` replaces for a value named `name`. */
  function Placeholder(name: string): (p: string)
    ensures |p| > 0 && p[0] == '{'
  {
    "{" + name + "}"
  }

  /** `formatMessage` after `t`: each value in entry order replaces every occurrence of
      its placeholder. `None` stands for the TypeError thrown when the lookup reached an
      object and there is a value to substitute. */
  function Substitute(message: Entry, values: seq<(string, string)>): Option<Entry>
    decreases |values|
  {
    if values == [] then Some(message)
    else match message
      case Branch(_) => None
      case Leaf(s) => Substitute(Leaf(ReplaceAll(s, Placeholder(values[0].0), values[0].1)), values[1..])
  }

  /** Substitution into a text never fails and yields a text; into an object it fails
      exactly when there is something to substitute. */
  lemma {:induction false} SubstituteDefined(message: Entry, values: seq<(string, string)>)
    ensures message.Leaf? ==> Substitute(message, values).Some? && Substitute(message, values).value.Leaf?
    ensures message.Branch? ==> (Substitute(message, values).None? <==> values != [])
    decreases |values|
  {
    if values != [] && message.Leaf? {
      SubstituteDefined(Leaf(ReplaceAll(message.text, Placeholder(values[0].0), values[0].1)), values[1..]);
    }
  }

  /** A value whose placeholder is absent from the text changes nothing: substituting
      a text with no `{` at all gives the text back. */
  lemma {:induction false} SubstituteNoBraces(s: string, values: seq<(string, string)>)
    requires '{' !in s
    ensures Substitute(Leaf(s), values) == Some(Leaf(s))
    decreases |values|
  {
    if values != [] {
      SubstituteNoBraces(s, values[1..]);
    }
  }

  /** The stored preference is adopted only when it is exactly "en" or "ja". */
  function AdoptSaved(current: Lang, saved: Option<string>): (r: Lang)
    ensures saved == Some("en") ==> r == En
    ensures saved == Some("ja") ==> r == Ja
    ensures saved != Some("en") && saved != Some("ja") ==> r == current
  {
    match saved
    case Some(s) => if s == "en" then En else if s == "ja" then Ja else current
    case None => current
  }

  /** The provider: the current language and the two tables (the locale files are not
      part of this model, so the tables are given when the provider is built). */
  class LanguageProvider {
    const en: Entry
    const ja: Entry
    var language: Lang
    var isClient: bool

    function Table(): Entry
      reads this
    {
      if language == En then en else ja
    }

    /** Initial render: Japanese, not yet on the client. */
    constructor(en: Entry, ja: Entry)
      ensures this.en == en && this.ja == ja
      ensures language == Ja && !isClient
    {
      this.en := en;
      this.ja := ja;
      language := Ja;
      isClient := false;
    }

    /** The mount effect followed by the effect that reads local storage. */
    method Mount(saved: Option<string>)
      modifies this
      ensures isClient
      ensures language == AdoptSaved(old(language), saved)
    {
      isClient := true;
      language := AdoptSaved(language, saved);
    }

    method SetLanguage(lang: Lang)
      modifies this
      ensures language == lang && isClient == old(isClient)
    {
      language := lang;
    }

    /** `t`: walks the key's segments, returning the key as soon as one is missing. */
    method T(key: string) returns (r: Entry)
      ensures r == Translate(Table(), key)
    {
      var keys := Split(key, '.');
      var result := Table();
      var i := 0;
      while i < |keys|
        invariant 0 <= i <= |keys|
        invariant Descend(Table(), keys) == Descend(result, keys[i..])
      {
        assert keys[i..][1..] == keys[i + 1..];
        var c := Child(result, keys[i]);
        if c.None? {
          return Leaf(key);
        }
        result := c.value;
        i := i + 1;
      }
      return result;
    }

    /** `formatMessage`: one `replace` per value, in entry order. */
    method FormatMessage(key: string, values: seq<(string, string)>) returns (r: Option<Entry>)
      ensures r == Substitute(Translate(Table(), key), values)
    {
      var message := T(key);
      var i := 0;
      while i < |values|
        invariant 0 <= i <= |values|
        invariant Substitute(Translate(Table(), key), values) == Substitute(message, values[i..])
      {
        assert values[i..][1..] == values[i + 1..];
        if message.Branch? {
          return None;
        }
        message := Leaf(ReplaceAll(message.text, Placeholder(values[i].0), values[i].1));
        i := i + 1;
      }
      return Some(message);
    }
  }

  /** `formatMessage(key, {})` is `t(key)`. */
  lemma FormatWithoutValues(table: Entry, key: string)
    ensures Substitute(Translate(table, key), []) == Some(Translate(table, key))
  {
  }
}
