/** The email-drafting page: a list of email templates with `[KEY]` placeholders, a
    category filter over them, and a preview that fills the placeholders from the values
    typed into the form. */
module EmailDrafting {
  import opened Text
  import opened Collections

  /** An email template: its id, title, category, text and placeholder keys in the order
      the form lists them. */
  datatype Template = Template(
    id: string, title: string, category: string, text: string, placeholders: seq<string>)

  /** The texts of the parts of a text between its '[' characters, each part written
      as a list of short chunks. */
  function Concats(parts: seq<seq<string>>): (r: seq<string>)
    ensures |r| == |parts|
    ensures forall j :: 0 <= j < |parts| ==> r[j] == Concat(parts[j])
  {
    seq(|parts|, j requires 0 <= j < |parts| => Concat(parts[j]))
  }

  /** A text from its parts: the parts joined with '['. */
  function Assemble(parts: seq<seq<string>>): string
  {
    Join(Concats(parts), "[")
  }

  function CategoryNames(templates: seq<Template>): (r: seq<string>)
    ensures |r| == |templates|
    ensures forall i :: 0 <= i < |templates| ==> r[i] == templates[i].category
  {
    seq(|templates|, i requires 0 <= i < |templates| => templates[i].category)
  }

  /** `['All', ...Array.from(new Set(emailTemplates.map(t => t.category)))]`. */
  function Categories(templates: seq<Template>): seq<string>
  {
    ["All"] + Dedup(CategoryNames(templates))
  }

  /** 'All' comes first, then every category exactly once, in the order of first use. */
  lemma {:induction false} CategoriesSpec(templates: seq<Template>)
    ensures var cs := Categories(templates);
            cs[0] == "All" &&
            Distinct(cs[1..]) &&
            (forall c :: c in cs[1..] <==> exists t :: t in templates && t.category == c) &&
            (forall i, j :: 1 <= i < j < |cs| ==>
               cs[i] in CategoryNames(templates) && cs[j] in CategoryNames(templates) &&
               FirstIndex(CategoryNames(templates), cs[i]) < FirstIndex(CategoryNames(templates), cs[j]))
  {
    var names := CategoryNames(templates);
    var cs := Categories(templates);
    DedupSpec(names);
    assert cs[1..] == Dedup(names);
    forall c ensures c in cs[1..] <==> exists t :: t in templates && t.category == c {
      if c in names {
        var i :| 0 <= i < |names| && names[i] == c;
        assert templates[i] in templates;
      }
      if exists t :: t in templates && t.category == c {
        var t :| t in templates && t.category == c;
        var i :| 0 <= i < |templates| && templates[i] == t;
        assert names[i] == c;
      }
    }
    forall i, j | 1 <= i < j < |cs|
      ensures FirstIndex(names, cs[i]) < FirstIndex(names, cs[j])
    {
      assert cs[i] == Dedup(names)[i - 1] && cs[j] == Dedup(names)[j - 1];
    }
  }

  /** The page's eight templates carry, in order, these categories. */
  const PageCategoryNames: seq<string> := ["Application", "Follow-up", "Networking", "Follow-up", "Networking", "Negotiation", "Professional", "Networking"]

  /** The shape of the page's category names: five distinct names `a`..`e`, with `b`
      and `c` used again, de-duplicate to the five in order of first use. */
  lemma {:induction false} DedupPageShape<T>(a: T, b: T, c: T, d: T, e: T)
    requires a != b && a != c && a != d && a != e && b != c && b != d && b != e
    requires c != d && c != e && d != e
    ensures Dedup([a, b, c, b, c, d, e, c]) == [a, b, c, d, e]
  {
    DedupPageShapeFirst(a, b, c, d, e);
    DedupAppend([a, b, c, b, c, d], e);
    assert [a, b, c, b, c, d] + [e] == [a, b, c, b, c, d, e];
    assert Dedup([a, b, c, b, c, d, e]) == [a, b, c, d, e];
    DedupAppend([a, b, c, b, c, d, e], c);
    assert [a, b, c, b, c, d, e] + [c] == [a, b, c, b, c, d, e, c];
  }

  /** The first six of those names de-duplicate to the first four. */
  lemma {:induction false} DedupPageShapeFirst<T>(a: T, b: T, c: T, d: T, e: T)
    requires a != b && a != c && a != d && b != c && b != d && c != d
    ensures Dedup([a, b, c, b, c, d]) == [a, b, c, d]
  {
    DedupPageShapeStart(a, b, c);
    DedupAppend([a, b, c, b], c);
    assert [a, b, c, b] + [c] == [a, b, c, b, c];
    assert Dedup([a, b, c, b, c]) == [a, b, c];
    DedupAppend([a, b, c, b, c], d);
    assert [a, b, c, b, c] + [d] == [a, b, c, b, c, d];
  }

  /** The first four de-duplicate to the first three. */
  lemma {:induction false} DedupPageShapeStart<T>(a: T, b: T, c: T)
    requires a != b && a != c && b != c
    ensures Dedup([a, b, c, b]) == [a, b, c]
  {
    assert [a][..0] == [];
    DedupAppend([a], b);
    assert [a] + [b] == [a, b];
    DedupAppend([a, b], c);
    assert [a, b] + [c] == [a, b, c];
    DedupAppend([a, b, c], b);
    assert [a, b, c] + [b] == [a, b, c, b];
  }

  /** De-duplicating the page's category names keeps five, in order of first use. */
  lemma {:induction false} PageCategoryNamesDedup()
    ensures Dedup(PageCategoryNames) ==
            ["Application", "Follow-up", "Networking", "Negotiation", "Professional"]
  {
    DedupPageShape("Application", "Follow-up", "Networking", "Negotiation", "Professional");
  }

  /** Templates whose categories are the page's give the category bar 'All',
      'Application', 'Follow-up', 'Networking', 'Negotiation', 'Professional'. */
  lemma {:induction false} PageCategories(templates: seq<Template>)
    requires CategoryNames(templates) == PageCategoryNames
    ensures Categories(templates) ==
            ["All", "Application", "Follow-up", "Networking", "Negotiation", "Professional"]
  {
    PageCategoryNamesDedup();
  }

  /** `filteredTemplates`. */
  function FilteredTemplates(templates: seq<Template>, active: string): seq<Template>
  {
    if active == "All" then templates
    else Filter(templates, (t: Template) => t.category == active)
  }

  /** 'All' shows every template; any other category shows exactly the templates in it,
      in page order. */
  lemma {:induction false} FilteredTemplatesSpec(templates: seq<Template>, active: string)
    ensures active == "All" ==> FilteredTemplates(templates, active) == templates
    ensures active != "All" ==>
              Subsequence(FilteredTemplates(templates, active), templates) &&
              forall t :: t in FilteredTemplates(templates, active) <==>
                t in templates && t.category == active
  {
    if active != "All" {
      FilterIsSubsequence(templates, (t: Template) => t.category == active);
      FilterMembership(templates, (t: Template) => t.category == active);
    }
  }

  // ---------------------------------------------------------------------------
  // Field values

  /** The form values `{ [key]: value }`, in the order the keys were first set. A key is
      a `[KEY]` placeholder, never an array index, so this is the order `Object.entries`
      lists them. */
  type Fields = seq<(string, string)>

  function FieldKeys(fields: Fields): (r: seq<string>)
    ensures |r| == |fields|
    ensures forall i :: 0 <= i < |fields| ==> r[i] == fields[i].0
  {
    seq(|fields|, i requires 0 <= i < |fields| => fields[i].0)
  }

  /** The value stored under `key`. */
  function Lookup(fields: Fields, key: string): Option<string>
  {
    if fields == [] then None
    else if fields[0].0 == key then Some(fields[0].1)
    else Lookup(fields[1..], key)
  }

  /** `{ ...fields, [key]: value }`: an existing key keeps its place and takes the new
      value, a new key goes last. */
  function SetField(fields: Fields, key: string, value: string): Fields
  {
    if fields == [] then [(key, value)]
    else if fields[0].0 == key then [(key, value)] + fields[1..]
    else [fields[0]] + SetField(fields[1..], key, value)
  }

  /** Setting a field stores its value under the key. */
  lemma {:induction false} SetFieldStores(fields: Fields, key: string, value: string)
    ensures Lookup(SetField(fields, key, value), key) == Some(value)
  {
    if fields != [] && fields[0].0 != key {
      SetFieldStores(fields[1..], key, value);
    }
  }

  /** Setting a field leaves another key's value alone. */
  lemma {:induction false} SetFieldKeepsOther(fields: Fields, key: string, value: string, other: string)
    requires other != key
    ensures Lookup(SetField(fields, key, value), other) == Lookup(fields, other)
  {
    if fields != [] && fields[0].0 != key {
      SetFieldKeepsOther(fields[1..], key, value, other);
    }
  }

  lemma FieldKeysCons(x: (string, string), rest: Fields)
    ensures FieldKeys([x] + rest) == [x.0] + FieldKeys(rest)
  {
  }

  /** Setting a field adds the key at the end only when it is new. */
  lemma {:induction false} SetFieldKeys(fields: Fields, key: string, value: string)
    ensures FieldKeys(SetField(fields, key, value)) ==
            if key in FieldKeys(fields) then FieldKeys(fields) else FieldKeys(fields) + [key]
  {
    var keys := FieldKeys(fields);
    var r := SetField(fields, key, value);
    if fields == [] {
      assert FieldKeys(r) == [key];
    } else {
      assert fields == [fields[0]] + fields[1..];
      FieldKeysCons(fields[0], fields[1..]);
      var rest := FieldKeys(fields[1..]);
      assert keys == [fields[0].0] + rest;
      if fields[0].0 == key {
        FieldKeysCons((key, value), fields[1..]);
        assert keys[0] == key;
      } else {
        var r' := SetField(fields[1..], key, value);
        SetFieldKeys(fields[1..], key, value);
        FieldKeysCons(fields[0], r');
        assert key in keys <==> key in rest;
        if key !in rest {
          assert [fields[0].0] + (rest + [key]) == keys + [key];
        }
      }
    }
  }

  /** Entering the value a key already has changes nothing, and entering two values in
      a row for one key is entering the last. */
  lemma {:induction false} SetFieldTwice(fields: Fields, key: string, v1: string, v2: string)
    ensures Lookup(fields, key) == Some(v1) ==> SetField(fields, key, v1) == fields
    ensures SetField(SetField(fields, key, v1), key, v2) == SetField(fields, key, v2)
  {
    if fields != [] && fields[0].0 != key {
      SetFieldTwice(fields[1..], key, v1, v2);
    }
  }

  /** Every key is non-empty: the form's keys are the template's `[KEY]` placeholders. */
  predicate KeysNonEmpty(fields: Fields)
  {
    forall i :: 0 <= i < |fields| ==> |fields[i].0| > 0
  }

  lemma {:induction false} SetFieldKeysNonEmpty(fields: Fields, key: string, value: string)
    requires KeysNonEmpty(fields) && |key| > 0
    ensures KeysNonEmpty(SetField(fields, key, value))
    ensures Distinct(FieldKeys(fields)) ==> Distinct(FieldKeys(SetField(fields, key, value)))
  {
    SetFieldKeys(fields, key, value);
    var r := SetField(fields, key, value);
    var keys := FieldKeys(fields);
    assert forall j :: 0 <= j < |keys| ==> |keys[j]| > 0;
    if key in keys {
      assert FieldKeys(r) == keys;
    } else {
      assert FieldKeys(r) == keys + [key];
    }
    assert forall j :: 0 <= j < |r| ==> FieldKeys(r)[j] == r[j].0;
  }

  /** The preview: starting from the template text, each entered key in turn has every
      occurrence replaced by its value, matched literally. */
  function Substitute(text: string, fields: Fields): string
    requires KeysNonEmpty(fields)
  {
    if fields == [] then text
    else
      var last := fields[|fields| - 1];
      ReplaceAll(Substitute(text, fields[..|fields| - 1]), last.0, last.1)
  }

  /** With no values entered, or none whose key occurs in the text, the preview is the
      template text. */
  lemma {:induction false} SubstituteAbsent(text: string, fields: Fields)
    requires KeysNonEmpty(fields)
    requires forall i :: 0 <= i < |fields| ==> !Contains(text, fields[i].0)
    ensures Substitute(text, fields) == text
  {
    if fields != [] {
      var init := fields[..|fields| - 1];
      SubstituteAbsent(text, init);
      ReplaceAbsent(text, fields[|fields| - 1].0, fields[|fields| - 1].1);
    }
  }

  /** One replacement step: the text between the occurrences of the key is kept, none of
      those pieces holds the key, and the occurrences become the value; joining the
      pieces with the key gives back the text, and the length changes by the value's
      length minus the key's for each occurrence. */
  lemma FillSpec(text: string, key: string, value: string)
    requires |key| > 0
    ensures ReplaceAll(text, key, value) == Join(Pieces(text, key), value)
    ensures Join(Pieces(text, key), key) == text
    ensures forall i :: 0 <= i < |Pieces(text, key)| ==> !Contains(Pieces(text, key)[i], key)
    ensures |ReplaceAll(text, key, value)| ==
            |text| + CountOccurrences(text, key) * (|value| - |key|)
  {
    PiecesJoin(text, key, value);
    PiecesAvoidSeparator(text, key);
    ReplaceLength(text, key, value);
  }

  /** Emptying a value deletes the key's occurrences: what is left is the text between
      them, shorter by the key's length for each. */
  lemma EmptiedValueDeletes(text: string, key: string)
    requires |key| > 0
    ensures ReplaceAll(text, key, "") == Join(Pieces(text, key), "")
    ensures |ReplaceAll(text, key, "")| == |text| - CountOccurrences(text, key) * |key|
  {
    FillSpec(text, key, "");
  }

  // ---------------------------------------------------------------------------
  // Placeholders

  /** A placeholder key: `[`, then a name with no bracket in it, then `]`, as every key
      in the template lists. */
  predicate Placeholder(k: string)
  {
    |k| >= 2 && k[0] == '[' && k[|k| - 1] == ']' &&
    forall i :: 0 < i < |k| - 1 ==> k[i] != '[' && k[i] != ']'
  }

  predicate PlaceholderKeys(fields: Fields)
  {
    forall i :: 0 <= i < |fields| ==> Placeholder(fields[i].0)
  }

  /** The number of positions where `k` starts, overlapping or not. */
  function CountAt(s: string, k: string): nat
    requires |k| > 0
    decreases |s|
  {
    if s == [] then 0 else (if IsPrefix(k, s) then 1 else 0) + CountAt(s[1..], k)
  }

  lemma {:induction false} CountAtShort(s: string, k: string)
    requires 0 < |k| && |s| < |k|
    ensures CountAt(s, k) == 0
  {
    if s != [] {
      CountAtShort(s[1..], k);
    }
  }

  /** Positions where `k` does not start add nothing. */
  lemma {:induction false} CountAtSkip(s: string, k: string, m: nat)
    requires 0 < |k| && m <= |s|
    requires forall d :: 0 <= d < m ==> !IsPrefix(k, s[d..])
    ensures CountAt(s, k) == CountAt(s[m..], k)
  {
    if m > 0 {
      assert s[0..] == s;
      forall d | 0 <= d < m - 1 ensures !IsPrefix(k, s[1..][d..]) {
        assert s[1..][d..] == s[d + 1..];
      }
      CountAtSkip(s[1..], k, m - 1);
      assert s[1..][m - 1..] == s[m..];
    }
  }

  /** Text in front adds occurrences and removes none. */
  lemma {:induction false} CountAtPrepend(a: string, b: string, k: string)
    requires |k| > 0
    ensures CountAt(a + b, k) >= CountAt(b, k)
  {
    if a == [] {
      assert a + b == b;
    } else {
      CountAtPrepend(a[1..], b, k);
      assert (a + b)[1..] == a[1..] + b;
    }
  }

  /** Only its first character is '[', so a placeholder never overlaps itself, and the
      leftmost non-overlapping count `replace` and the count of all positions agree. */
  lemma {:induction false} PlaceholderCount(s: string, k: string)
    requires Placeholder(k)
    ensures CountOccurrences(s, k) == CountAt(s, k)
    decreases |s|
  {
    if |s| < |k| {
      CountAtShort(s, k);
    } else if IsPrefix(k, s) {
      var t := s[1..];
      forall d | 0 <= d < |k| - 1 ensures !IsPrefix(k, t[d..]) {
        assert s[..|k|][d + 1] == k[d + 1];
        assert t[d..][0] == k[d + 1] != k[0];
      }
      CountAtSkip(t, k, |k| - 1);
      assert t[|k| - 1..] == s[|k|..];
      assert CountAt(s, k) == 1 + CountAt(t, k);
      PlaceholderCount(s[|k|..], k);
    } else {
      PlaceholderCount(s[1..], k);
    }
  }

  /** Two placeholders starting at the same place are the same: each ends at the first
      ']'. */
  lemma PrefixPlaceholders(s: string, j: string, k: string)
    requires Placeholder(j) && Placeholder(k) && IsPrefix(j, s) && IsPrefix(k, s)
    ensures j == k
  {
    assert |j| == |k|;
    assert j == s[..|j|] == k;
  }

  /** A replacement keeps the text up to the first character that could start the key. */
  lemma {:induction false} ReplaceKeepsPrefix(t: string, j: string, v: string, n: nat)
    requires |j| > 0 && n <= |t|
    requires forall i :: 0 <= i < n ==> t[i] != j[0]
    ensures IsPrefix(t[..n], ReplaceAll(t, j, v))
    decreases |t|
  {
    if n > 0 && |t| >= |j| {
      assert !IsPrefix(j, t) by {
        assert t[..|j|][0] != j[0];
      }
      ReplaceKeepsPrefix(t[1..], j, v, n - 1);
      assert t[..n] == [t[0]] + t[1..][..n - 1];
    }
  }

  /** Replacing one placeholder keeps every occurrence of another. */
  lemma {:induction false} ReplaceKeepsPlaceholder(s: string, j: string, v: string, k: string)
    requires Placeholder(j) && Placeholder(k) && j != k
    ensures CountAt(ReplaceAll(s, j, v), k) >= CountAt(s, k)
    decreases |s|
  {
    if |s| < |j| {
    } else if IsPrefix(j, s) {
      var rest := ReplaceAll(s[|j|..], j, v);
      ReplaceKeepsPlaceholder(s[|j|..], j, v, k);
      CountAtPrepend(v, rest, k);
      forall d | 0 <= d < |j| ensures !IsPrefix(k, s[d..]) {
        if d == 0 {
          assert s[0..] == s;
          if IsPrefix(k, s) {
            PrefixPlaceholders(s, j, k);
          }
        } else {
          assert s[d..][0] == j[d];
        }
      }
      CountAtSkip(s, k, |j|);
    } else {
      var rest := ReplaceAll(s[1..], j, v);
      var r := [s[0]] + rest;
      ReplaceKeepsPlaceholder(s[1..], j, v, k);
      assert r[1..] == rest;
      if IsPrefix(k, s) {
        ReplaceKeepsPrefix(s[1..], j, v, |k| - 1);
        assert r[..|k|] == [s[0]] + rest[..|k| - 1] == s[..|k|];
      }
    }
  }

  lemma {:induction false} SubstituteKeepsPlaceholderAt(text: string, fields: Fields, k: string)
    requires PlaceholderKeys(fields) && Placeholder(k)
    requires forall i :: 0 <= i < |fields| ==> fields[i].0 != k
    ensures KeysNonEmpty(fields)
    ensures CountAt(Substitute(text, fields), k) >= CountAt(text, k)
  {
    if fields != [] {
      var init := fields[..|fields| - 1];
      var last := fields[|fields| - 1];
      SubstituteKeepsPlaceholderAt(text, init, k);
      ReplaceKeepsPlaceholder(Substitute(text, init), last.0, last.1, k);
    }
  }

  /** A placeholder with no value entered keeps every one of its occurrences in the
      preview, whatever values the other placeholders hold. */
  lemma UnfilledPlaceholderKept(text: string, fields: Fields, k: string)
    requires PlaceholderKeys(fields) && Placeholder(k) && k !in FieldKeys(fields)
    ensures KeysNonEmpty(fields)
    ensures CountOccurrences(Substitute(text, fields), k) >= CountOccurrences(text, k)
  {
    assert forall i :: 0 <= i < |fields| ==> fields[i].0 == FieldKeys(fields)[i];
    SubstituteKeepsPlaceholderAt(text, fields, k);
    PlaceholderCount(text, k);
    PlaceholderCount(Substitute(text, fields), k);
  }

  lemma {:induction false} SetFieldNewKey(fields: Fields, key: string, value: string)
    requires key !in FieldKeys(fields)
    ensures SetField(fields, key, value) == fields + [(key, value)]
  {
    if fields != [] {
      assert FieldKeys(fields[1..]) == FieldKeys(fields)[1..];
      SetFieldNewKey(fields[1..], key, value);
      assert fields == [fields[0]] + fields[1..];
    }
  }

  /** Entering a value for a placeholder that occurs in the text, and has no value yet,
      puts the value into the preview built from every entered field. */
  lemma FilledKeyShowsValue(text: string, fields: Fields, key: string, value: string)
    requires PlaceholderKeys(fields) && Placeholder(key) && key !in FieldKeys(fields)
    requires Contains(text, key)
    ensures KeysNonEmpty(SetField(fields, key, value))
    ensures Contains(Substitute(text, SetField(fields, key, value)), value)
  {
    var next := SetField(fields, key, value);
    SetFieldNewKey(fields, key, value);
    assert next[..|next| - 1] == fields;
    UnfilledPlaceholderKept(text, fields, key);
    CountZeroIffAbsent(text, key);
    CountZeroIffAbsent(Substitute(text, fields), key);
    FillInsertsValue(Substitute(text, fields), key, value);
  }

  /** A value entered under a key that is not the last can vanish: in "[A[K]B]" the
      value "x" of `[K]` forms the later key `[AxB]`, which the preview then replaces. */
  lemma ReenteredValueCanVanish()
    ensures PlaceholderKeys([("[K]", "x"), ("[AxB]", "y")])
    ensures Contains("[A[K]B]", "[K]")
    ensures SetField([("[K]", "x"), ("[AxB]", "y")], "[K]", "x") == [("[K]", "x"), ("[AxB]", "y")]
    ensures !Contains(Substitute("[A[K]B]", [("[K]", "x"), ("[AxB]", "y")]), "x")
  {
    var fields := [("[K]", "x"), ("[AxB]", "y")];
    assert "[A[K]B]"[2..][..3] == "[K]";
    assert fields[..1] == [("[K]", "x")];
    assert ReplaceAll("[A[K]B]", "[K]", "x") == "[AxB]" by {
      assert "[A[K]B]"[1..] == "A[K]B]";
      assert "A[K]B]"[1..] == "[K]B]";
      assert "[K]B]"[3..] == "B]";
      assert ReplaceAll("B]", "[K]", "x") == "B]";
    }
    assert ReplaceAll("[AxB]", "[AxB]", "y") == "y" by {
      assert "[AxB]"[5..] == "";
    }
    assert !Contains("y", "x") by {
      assert "y"[1..] == "";
    }
  }

  /** The raw text the preview starts from: `selectedTemplate?.template || ''`. */
  function RawText(selected: Option<Template>): string
  {
    if selected.Some? then selected.value.text else ""
  }

  /** The page state. */
  class EmailDraft {
    var selected: Option<Template>
    var customizedEmail: string
    var formData: Fields
    var activeCategory: string

    /** The keys are distinct and non-empty, and the preview is the raw text with the
        entered values filled in. */
    predicate Valid()
      reads this
    {
      KeysNonEmpty(formData) && Distinct(FieldKeys(formData)) &&
      customizedEmail == Substitute(RawText(selected), formData)
    }

    constructor ()
      ensures Valid()
      ensures selected == None && customizedEmail == "" && formData == [] && activeCategory == "All"
    {
      selected := None;
      customizedEmail := "";
      formData := [];
      activeCategory := "All";
    }

    /** The category buttons. */
    method SetCategory(category: string)
      modifies this
      requires Valid()
      ensures Valid()
      ensures activeCategory == category
      ensures selected == old(selected) && customizedEmail == old(customizedEmail) && formData == old(formData)
    {
      activeCategory := category;
    }

    /** `handleTemplateSelect`: the preview becomes the raw template text and every
        value is cleared. */
    method SelectTemplate(template: Template)
      modifies this
      ensures Valid()
      ensures selected == Some(template) && customizedEmail == template.text && formData == []
      ensures activeCategory == old(activeCategory)
    {
      selected := Some(template);
      customizedEmail := template.text;
      formData := [];
    }

    /** `handleFormDataChange`: the value is stored under its key and the preview is
        rebuilt from the raw text, replacing each entered key in turn. */
    method ChangeField(placeholder: string, value: string)
      modifies this
      requires Valid() && |placeholder| > 0
      ensures Valid()
      ensures formData == SetField(old(formData), placeholder, value)
      ensures customizedEmail == Substitute(RawText(selected), formData)
      ensures selected == old(selected) && activeCategory == old(activeCategory)
    {
      var updated := SetField(formData, placeholder, value);
      SetFieldKeysNonEmpty(formData, placeholder, value);
      var email := RawText(selected);
      var i := 0;
      while i < |updated|
        invariant 0 <= i <= |updated|
        invariant email == Substitute(RawText(selected), updated[..i])
      {
        assert updated[..i + 1][..i] == updated[..i];
        email := ReplaceAll(email, updated[i].0, updated[i].1);
        i := i + 1;
      }
      assert updated[..i] == updated;
      formData := updated;
      customizedEmail := email;
    }
  }

  /** Entering the same value again leaves the preview as it is: the preview depends only
      on the raw text and the stored values. */
  lemma ChangeFieldIdempotent(raw: string, fields: Fields, key: string, value: string)
    requires KeysNonEmpty(fields) && |key| > 0
    ensures KeysNonEmpty(SetField(fields, key, value))
    ensures SetField(SetField(fields, key, value), key, value) == SetField(fields, key, value)
    ensures Substitute(raw, SetField(SetField(fields, key, value), key, value)) ==
            Substitute(raw, SetField(fields, key, value))
  {
    SetFieldKeysNonEmpty(fields, key, value);
    SetFieldTwice(fields, key, value, value);
  }

  // ---------------------------------------------------------------------------
  // The job-decline template

  const DeclineReasonKey: string := "[DECLINE_REASON]"

  /** Parts `lo` to `hi` of a template text hold no '['. */
  predicate PartsAvoidOpen(parts: seq<seq<string>>, lo: nat, hi: nat)
    requires lo <= hi <= |parts|
  {
    forall j, m, i :: lo <= j < hi && 0 <= m < |parts[j]| && 0 <= i < |parts[j][m]| ==>
      parts[j][m][i] != '['
  }

  /** No chunk of a part holds '['. */
  predicate ChunksAvoidOpen(chunks: seq<string>)
  {
    forall m, i :: 0 <= m < |chunks| && 0 <= i < |chunks[m]| ==> chunks[m][i] != '['
  }

  lemma ChunksAvoidOpenAppend(a: seq<string>, b: seq<string>)
    requires ChunksAvoidOpen(a) && ChunksAvoidOpen(b)
    ensures ChunksAvoidOpen(a + b)
  {
    forall m | 0 <= m < |a + b| ensures (a + b)[m] == if m < |a| then a[m] else b[m - |a|] {}
  }

  lemma PartAvoidsOpen(parts: seq<seq<string>>, j: nat)
    requires j < |parts| && ChunksAvoidOpen(parts[j])
    ensures PartsAvoidOpen(parts, j, j + 1)
  {
  }
}
