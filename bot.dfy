/**
  The brand-configuration conversations of the Telegram bot: the
  comma-separated list answers, the case-insensitive brand lookup, the
  add / edit / delete dialogues as transitions over the user's pending
  data and the brands file, and the message sent when a research run
  finds no posts. Telegram itself, the file I/O and the reply texts other
  than the no-posts message are not modelled.
 */
module Bot {
  import opened Wrappers
  import Text
  import Sorting

  // ---------------------------------------------------------------------
  // Comma-separated answers
  // ---------------------------------------------------------------------

  /** `[k.strip() for k in pieces if k.strip()]` */
  function KeepItems(pieces: seq<string>): (r: seq<string>)
    ensures |r| <= |pieces|
    decreases |pieces|
  {
    if pieces == [] then []
    else
      var k := Text.Strip(pieces[0]);
      (if k != "" then [k] else []) + KeepItems(pieces[1..])
  }

  /** `[k.strip() for k in text.split(",") if k.strip()]` */
  function ParseItems(text: string): seq<string> {
    KeepItems(Text.Split(text, ','))
  }

  function Skip(): string { "skip" }

  /** The answer to a list question of `/research_add`: "skip" in any case gives no items. */
  function ParseListAnswer(text: string): seq<string> {
    var t := Text.Strip(text);
    if Text.Lower(t) == Skip() then [] else ParseItems(t)
  }

  /** What a parsed item always is: non-empty, trimmed, without a comma. */
  predicate IsItem(x: string) {
    x != "" && Text.Trimmed(x) && ',' !in x
  }

  lemma {:induction false} KeepItemsAreItems(pieces: seq<string>)
    requires forall j :: 0 <= j < |pieces| ==> ',' !in pieces[j]
    ensures forall k :: 0 <= k < |KeepItems(pieces)| ==> IsItem(KeepItems(pieces)[k])
    decreases |pieces|
  {
    if pieces != [] {
      KeepItemsAreItems(pieces[1..]);
      StripNoComma(pieces[0]);
    }
  }

  lemma StripNoComma(p: string)
    requires ',' !in p
    ensures ',' !in Text.Strip(p)
  {
    var l := Text.StripLeft(p);
    var t := Text.Strip(p);
    assert l == p[|p| - |l|..];
    assert t == l[..|t|];
    assert forall i :: 0 <= i < |t| ==> t[i] == p[|p| - |l| + i];
  }

  /** Every parsed item is non-empty, has no surrounding whitespace and no comma. */
  lemma ParseItemsAreItems(text: string)
    ensures forall k :: 0 <= k < |ParseItems(text)| ==> IsItem(ParseItems(text)[k])
  {
    Text.SplitPiecesFree(text, ',');
    KeepItemsAreItems(Text.Split(text, ','));
  }
  /** `", ".join(items)`: how the bot shows a list back to the user. */
  function Show(items: seq<string>): string {
    Text.Join(items, ", ")
  }

  /** Leading whitespace only widens the first piece of a split. */
  lemma {:induction false} SplitPadded(w: string, x: string)
    requires Text.AllSpace(w)
    ensures Text.Split(w + x, ',') == [w + Text.Split(x, ',')[0]] + Text.Split(x, ',')[1..]
    decreases |w|
  {
    if w != [] {
      assert (w + x)[1..] == w[1..] + x;
      assert !Text.IsSpace(',');
      SplitPadded(w[1..], x);
      var rest := Text.Split(w[1..] + x, ',');
      assert Text.Split(w + x, ',') == [[w[0]] + rest[0]] + rest[1..];
      assert [w[0]] + (w[1..] + Text.Split(x, ',')[0]) == w + Text.Split(x, ',')[0];
    } else {
      assert w + x == x;
      var sx := Text.Split(x, ',');
      assert sx == [sx[0]] + sx[1..];
      assert w + sx[0] == sx[0];
    }
  }

  lemma {:induction false} KeepItemsCons(p: string, q: seq<string>)
    ensures KeepItems([p] + q) == KeepItems([p]) + KeepItems(q)
  {
    var k := Text.Strip(p);
    var head := if k != "" then [k] else [];
    assert ([p] + q)[1..] == q;
    assert KeepItems([p] + q) == head + KeepItems(q);
    assert [p][1..] == [];
    assert KeepItems([p]) == head + KeepItems([]);
    assert KeepItems([]) == [];
    assert head + [] == head;
  }

  /** A padded item alone keeps just the item. */
  lemma {:induction false} KeepPaddedItem(w: string, x: string)
    requires Text.AllSpace(w) && (x == [] || IsItem(x))
    ensures KeepItems([w + x]) == if x == [] then [] else [x]
  {
    Text.StripPadded(w, x, []);
    assert w + x + [] == w + x;
    assert [w + x][1..] == [];
  }

  lemma {:induction false} ParsePaddedShow(w: string, items: seq<string>)
    requires Text.AllSpace(w)
    requires forall k :: 0 <= k < |items| ==> IsItem(items[k])
    ensures KeepItems(Text.Split(w + Show(items), ',')) == items
    decreases |items|
  {
    if |items| == 0 {
      assert w + Show(items) == w + [];
      assert ',' !in w;
      Text.SplitNoSep(w + [], ',');
      KeepPaddedItem(w, []);
    } else if |items| == 1 {
      assert Show(items) == items[0];
      assert ',' !in w + items[0];
      Text.SplitNoSep(w + items[0], ',');
      KeepPaddedItem(w, items[0]);
    } else {
      var rest := Show(items[1..]);
      assert Show(items) == items[0] + ", " + rest;
      assert w + Show(items) == (w + items[0]) + [','] + (" " + rest);
      Text.SplitAfterPiece(w + items[0], ',', " " + rest);
      KeepItemsCons(w + items[0], Text.Split(" " + rest, ','));
      KeepPaddedItem(w, items[0]);
      ParsePaddedShow(" ", items[1..]);
      assert items == [items[0]] + items[1..];
    }
  }

  /** Parsing a list shown with `", ".join` gives the list back. */
  lemma ParseShow(items: seq<string>)
    requires forall k :: 0 <= k < |items| ==> IsItem(items[k])
    ensures ParseItems(Show(items)) == items
  {
    ParsePaddedShow([], items);
    assert [] + Show(items) == Show(items);
  }
  lemma {:induction false} ShowTrimmed(items: seq<string>)
    requires forall k :: 0 <= k < |items| ==> IsItem(items[k])
    ensures Text.Trimmed(Show(items))
    ensures items != [] ==> Show(items) != []
    decreases |items|
  {
    if |items| >= 2 {
      ShowTrimmed(items[1..]);
      var rest := Show(items[1..]);
      assert Show(items) == items[0] + ", " + rest;
      assert Show(items)[|Show(items)| - 1] == rest[|rest| - 1];
    } else if |items| == 1 {
      assert Show(items) == items[0];
    }
  }

  /** A shown list of two or more items has a comma, so it never reads "skip". */
  lemma ShowNotSkip(items: seq<string>)
    requires |items| >= 2
    ensures Text.Lower(Show(items)) != Skip()
  {
    var at := |items[0]|;
    assert Show(items) == items[0] + ", " + Show(items[1..]);
    assert Show(items)[at] == ',';
    assert Text.Lower(Show(items))[at] == ',';
    assert ',' !in Skip();
  }

  /**
    A list answer gives its items back after being shown with `", ".join`,
    unless it is the single word "skip", which means no items.
   */
  lemma ParseAnswerShow(items: seq<string>)
    requires forall k :: 0 <= k < |items| ==> IsItem(items[k])
    ensures ParseListAnswer(Show(items)) == (if |items| == 1 && Text.Lower(items[0]) == Skip() then [] else items)
  {
    var shown := Show(items);
    ShowTrimmed(items);
    Text.StripPadded([], shown, []);
    assert [] + shown + [] == shown;
    ParseShow(items);
    if |items| >= 2 {
      ShowNotSkip(items);
    } else if |items| == 1 {
      assert shown == items[0];
    } else {
      assert Text.Lower(shown) == [];
    }
  }

  /** Every item of a list answer is non-empty, trimmed and comma-free. */
  lemma ListAnswerItems(text: string)
    ensures forall k :: 0 <= k < |ParseListAnswer(text)| ==> IsItem(ParseListAnswer(text)[k])
  {
    ParseItemsAreItems(Text.Strip(text));
  }
  // ---------------------------------------------------------------------
  // The brands file
  // ---------------------------------------------------------------------

  /** A config value: text (`category`, `description`) or a list of strings. */
  datatype Value = Str(s: string) | List(xs: seq<string>)

  /** The keys of a brand's config: `name` (only while the record is pending), `category`,
      `keywords`, `product_terms`, `competitors`, `subreddit_hints`, `description`. */
  datatype Key = Name | Category | Keywords | ProductTerms | Competitors | SubredditHints | Description

  type Config = map<Key, Value>

  /**
    The `"brands"` object of the brands file: its names in insertion order
    (a dict's iteration order) and each name's config.
   */
  datatype Brands = Brands(names: seq<string>, configs: map<string, Config>)

  ghost predicate Valid(b: Brands) {
    Sorting.Distinct(b.names) && forall n :: n in b.configs <==> n in b.names
  }

  /** `brands[name] = cfg`: a new name goes last, an existing one keeps its place. */
  function Put(b: Brands, name: string, cfg: Config): Brands {
    Brands(if name in b.configs then b.names else b.names + [name], b.configs[name := cfg])
  }

  /** The names without `name`. */
  function Remove(names: seq<string>, name: string): (r: seq<string>)
    ensures forall n :: n in r <==> n in names && n != name
    decreases |names|
  {
    if names == [] then []
    else (if names[0] == name then [] else [names[0]]) + Remove(names[1..], name)
  }

  /** `del brands[name]` */
  function Delete(b: Brands, name: string): Brands {
    Brands(Remove(b.names, name), b.configs - {name})
  }

  lemma {:induction false} RemoveKeepsDistinct(names: seq<string>, name: string)
    requires Sorting.Distinct(names)
    ensures Sorting.Distinct(Remove(names, name))
    decreases |names|
  {
    if names != [] {
      RemoveKeepsDistinct(names[1..], name);
      assert names[0] !in names[1..];
    }
  }

  /** Storing a config keeps the file well formed, and keeps the order of the names already there. */
  lemma PutValid(b: Brands, name: string, cfg: Config)
    requires Valid(b)
    ensures Valid(Put(b, name, cfg))
    ensures b.names <= Put(b, name, cfg).names
    ensures Put(b, name, cfg).configs[name] == cfg
    ensures forall n :: n in b.configs && n != name ==> Put(b, name, cfg).configs[n] == b.configs[n]
  {
  }

  /** Deleting a brand keeps the file well formed and leaves every other brand as it was. */
  lemma DeleteValid(b: Brands, name: string)
    requires Valid(b)
    ensures Valid(Delete(b, name))
    ensures name !in Delete(b, name).configs
    ensures forall n :: n in b.configs && n != name ==> n in Delete(b, name).configs && Delete(b, name).configs[n] == b.configs[n]
  {
    RemoveKeepsDistinct(b.names, name);
  }

  // ---------------------------------------------------------------------
  // Case-insensitive lookup
  // ---------------------------------------------------------------------

  predicate SameName(stored: string, query: string) {
    Text.Lower(stored) == Text.Lower(query)
  }

  /** The first stored name equal to `query` ignoring case. */
  function FirstMatch(names: seq<string>, query: string): Option<string>
    decreases |names|
  {
    if names == [] then None
    else if SameName(names[0], query) then Some(names[0])
    else FirstMatch(names[1..], query)
  }

  /**
    The lookup finds a name exactly when one matches, and then the first
    one in the file's order.
   */
  lemma {:induction false} FirstMatchFacts(names: seq<string>, query: string)
    ensures FirstMatch(names, query).None? <==> forall j :: 0 <= j < |names| ==> !SameName(names[j], query)
    ensures FirstMatch(names, query).Some? ==>
      exists i :: 0 <= i < |names| && names[i] == FirstMatch(names, query).value && SameName(names[i], query)
        && forall j :: 0 <= j < i ==> !SameName(names[j], query)
    decreases |names|
  {
    if names != [] {
      FirstMatchFacts(names[1..], query);
      if !SameName(names[0], query) && FirstMatch(names, query).Some? {
        var i :| 0 <= i < |names[1..]| && names[1..][i] == FirstMatch(names, query).value && SameName(names[1..][i], query)
                 && forall j :: 0 <= j < i ==> !SameName(names[1..][j], query);
        assert names[i + 1] == names[1..][i];
        assert forall j :: 1 <= j < i + 1 ==> names[j] == names[1..][j - 1];
      }
      if !SameName(names[0], query) {
        assert forall j :: 1 <= j < |names| ==> names[j] == names[1..][j - 1];
      }
    }
  }

  /** A match is one of the stored names. */
  lemma {:induction false} FirstMatchIn(names: seq<string>, query: string)
    ensures FirstMatch(names, query).Some? ==> FirstMatch(names, query).value in names
    decreases |names|
  {
    if names != [] && !SameName(names[0], query) {
      FirstMatchIn(names[1..], query);
    }
  }

  /** `for name, cfg in brands.items(): if name.lower() == brand_name.lower(): ... break` */
  method FindBrand(b: Brands, query: string) returns (found: Option<string>)
    ensures found == FirstMatch(b.names, query)
  {
    var q := Text.Lower(query);
    for i := 0 to |b.names|
      invariant FirstMatch(b.names[i..], query) == FirstMatch(b.names, query)
    {
      if Text.Lower(b.names[i]) == q {
        return Some(b.names[i]);
      }
      assert b.names[i..][1..] == b.names[i + 1..];
    }
    assert b.names[|b.names|..] == [];
    return None;
  }

  /**
    `/research <brand>`: a copy of the matched brand's config with `Name`
    set to the stored spelling (bot.py:138-145).
   */
  method ResearchConfig(b: Brands, query: string) returns (r: Option<(string, Config)>)
    requires Valid(b)
    ensures r.None? <==> FirstMatch(b.names, query).None?
    ensures r.Some? ==> (r.value.0 == FirstMatch(b.names, query).value && r.value.0 in b.configs
                         && r.value.1 == b.configs[r.value.0][Name := Str(r.value.0)])
  {
    var name := FindBrand(b, query);
    if name.None? {
      return None;
    }
    FirstMatchFacts(b.names, query);
    var cfg := b.configs[name.value];
    r := Some((name.value, cfg[Name := Str(name.value)]));
  }

  /**
    The lookup of `/research_delete` and `/research_edit`: the first match,
    reported as not found when its config is empty (`if not matched_cfg`).
   */
  function Lookup(b: Brands, query: string): Option<string>
    requires Valid(b)
  {
    var m := FirstMatch(b.names, query);
    if m.None? then None
    else
      FirstMatchFacts(b.names, query);
      if b.configs[m.value] == map[] then None else m
  }
  // ---------------------------------------------------------------------
  // The dialogues
  // ---------------------------------------------------------------------

  /** The entries the dialogues keep in `context.user_data`, each present or absent. */
  datatype UserData = UserData(newBrand: Option<Config>, deleteBrand: Option<string>,
                               editBrand: Option<string>, editField: Option<Key>)

  /**
    The conversation state a handler returns; `Raised` when an exception
    escapes the handler (the conversation then stays where it was).
   */
  datatype Next = AskName | AskCategory | AskKeywords | AskProductTerms | AskCompetitors | AskSubredditHints
                | AskDescription | ConfirmDelete | SelectField | EnterValue | End | Raised

  /** What a handler leaves behind: the user's entries, the brands file, the next state. */
  datatype Step = Step(user: UserData, brands: Brands, next: Next)

  /** Python truthiness of an entry popped with a `None` default. */
  predicate Truthy(o: Option<string>) {
    o.Some? && o.value != ""
  }

  function Yes(): string { "YES" }

  /** `add_start`, for an authorised user or not. */
  function AddStart(u: UserData, b: Brands, authorized: bool): Step {
    if !authorized then Step(u, b, End)
    else Step(u.(newBrand := None), b, AskName)
  }

  /** `add_brand_name` */
  function AddBrandName(u: UserData, b: Brands, text: string): Step {
    Step(u.(newBrand := Some(map[Name := Str(Text.Strip(text))])), b, AskCategory)
  }

  /** `add_category`: the category is stored stripped and in lower case. */
  function AddCategory(u: UserData, b: Brands, text: string): Step {
    if u.newBrand.None? then Step(u, b, Raised)
    else Step(u.(newBrand := Some(u.newBrand.value[Category := Str(Text.Lower(Text.Strip(text)))])), b, AskKeywords)
  }

  /**
    `add_keywords`, `add_product_terms`, `add_competitors` and
    `add_subreddit_hints`: the same handler for the list stored under `key`,
    followed by the state `after`.
   */
  function AddList(u: UserData, b: Brands, key: Key, after: Next, text: string): Step {
    if u.newBrand.None? then Step(u, b, Raised)
    else Step(u.(newBrand := Some(u.newBrand.value[key := List(ParseListAnswer(text))])), b, after)
  }

  /** The record `add_description` stores: without `Name`, with the (stripped) `description`. */
  function Stored(data: Config, description: string): Config {
    (data - {Name})[Description := Str(description)]
  }

  /**
    `add_description`: the pending record leaves `user_data` and is stored
    under its name; any exception is reported and ends the dialogue.
   */
  function AddDescription(u: UserData, b: Brands, text: string): Step {
    if u.newBrand.None? then Step(u, b, End)
    else
      var data := u.newBrand.value;
      var u' := u.(newBrand := None);
      if Name !in data || !data[Name].Str? then Step(u', b, End)
      else Step(u', Put(b, data[Name].s, Stored(data, Text.Strip(text))), End)
  }

  /** `delete_start` and `edit_start` share this: the arguments joined with spaces. */
  function Query(args: seq<string>): string {
    Text.Join(args, " ")
  }

  /** `delete_start` */
  function DeleteStart(u: UserData, b: Brands, authorized: bool, args: seq<string>): Step
    requires Valid(b)
  {
    if !authorized || args == [] then Step(u, b, End)
    else
      var m := Lookup(b, Query(args));
      if m.None? then Step(u, b, End)
      else Step(u.(deleteBrand := m), b, ConfirmDelete)
  }

  /** `delete_confirm` */
  function DeleteConfirmStep(u: UserData, b: Brands, text: string): Step {
    var u' := u.(deleteBrand := None);
    if !Truthy(u.deleteBrand) || Text.Upper(Text.Strip(text)) != Yes() then Step(u', b, End)
    else if u.deleteBrand.value in b.configs then Step(u', Delete(b, u.deleteBrand.value), End)
    else Step(u', b, End)
  }

  /** `edit_start` */
  function EditStart(u: UserData, b: Brands, authorized: bool, args: seq<string>): Step
    requires Valid(b)
  {
    if !authorized || args == [] then Step(u, b, End)
    else
      var m := Lookup(b, Query(args));
      if m.None? then Step(u, b, End)
      else Step(u.(editBrand := m), b, SelectField)
  }

  /** `EDIT_FIELDS.get(choice)` */
  function EditField(choice: string): Option<Key> {
    match choice
    case "1" => Some(Category)
    case "2" => Some(Keywords)
    case "3" => Some(ProductTerms)
    case "4" => Some(Competitors)
    case "5" => Some(SubredditHints)
    case "6" => Some(Description)
    case _ => None
  }

  /**
    `edit_field_select`: an unknown choice asks again; a known one is stored,
    and reading the pending brand raises when there is none.
   */
  function EditSelect(u: UserData, b: Brands, text: string): Step {
    var f := EditField(Text.Strip(text));
    if f.None? then Step(u, b, SelectField)
    else
      var u' := u.(editField := f);
      if u.editBrand.None? then Step(u', b, Raised) else Step(u', b, EnterValue)
  }

  /** The fields kept as text rather than as a list. */
  predicate TextField(field: Key) {
    field == Category || field == Description
  }

  /** The new value of an edited field. */
  function EditedValue(field: Key, text: string): Value {
    var t := Text.Strip(text);
    if TextField(field) then Str(t) else List(ParseItems(t))
  }

  /** `edit_field_value` */
  function EditValue(u: UserData, b: Brands, text: string): Step {
    var u' := u.(editBrand := None, editField := None);
    if !Truthy(u.editBrand) || !u.editField.Some? then Step(u', b, End)
    else
      var name := u.editBrand.value;
      if name !in b.configs || b.configs[name] == map[] then Step(u', b, End)
      else Step(u', Put(b, name, b.configs[name][u.editField.value := EditedValue(u.editField.value, text)]), End)
  }
  // ---------------------------------------------------------------------
  // What the dialogues promise
  // ---------------------------------------------------------------------

  /** Only "1" to "6" select a field, each a different one. */
  lemma EditFieldChoices(choice: string, other: string)
    ensures EditField(choice).Some? <==> choice in ["1", "2", "3", "4", "5", "6"]
    ensures EditField(choice).Some? && EditField(choice) == EditField(other) ==> choice == other
  {
  }

  /**
    An answer other than "1" to "6" keeps the dialogue in the field menu and
    stores nothing; a valid one stores its field and nothing else.
   */
  lemma EditSelectFacts(u: UserData, b: Brands, text: string)
    ensures var st := EditSelect(u, b, text);
      st.brands == b
      && (st.next == SelectField <==> EditField(Text.Strip(text)).None?)
      && (st.next == SelectField ==> st.user == u)
      && (st.next != SelectField ==> st.user == u.(editField := EditField(Text.Strip(text))))
  {
  }

  /**
    Editing ends the dialogue and always clears both pending entries. With
    the brand and field pending and the brand still there, exactly that
    field of that brand changes; otherwise the file is untouched.
   */
  lemma EditValueFacts(u: UserData, b: Brands, text: string)
    requires Valid(b)
    ensures var st := EditValue(u, b, text);
      st.next == End && st.user.editBrand.None? && st.user.editField.None?
      && st.user.newBrand == u.newBrand && st.user.deleteBrand == u.deleteBrand
      && Valid(st.brands) && st.brands.names == b.names
    ensures var st := EditValue(u, b, text);
      if Truthy(u.editBrand) && u.editField.Some? && u.editBrand.value in b.configs
         && b.configs[u.editBrand.value] != map[]
      then
        var name := u.editBrand.value;
        var field := u.editField.value;
        st.brands.configs[name][field] == EditedValue(field, text)
        && (forall k :: k in b.configs[name] && k != field ==>
              k in st.brands.configs[name] && st.brands.configs[name][k] == b.configs[name][k])
        && (forall n :: n in b.configs && n != name ==> st.brands.configs[n] == b.configs[n])
      else st.brands == b
  {
    if Truthy(u.editBrand) && u.editField.Some? && u.editBrand.value in b.configs
       && b.configs[u.editBrand.value] != map[] {
      var name := u.editBrand.value;
      PutValid(b, name, b.configs[name][u.editField.value := EditedValue(u.editField.value, text)]);
    }
  }

  /** Text fields keep the stripped answer; list fields get its comma-separated items. */
  lemma EditedValueFacts(field: Key, text: string)
    ensures TextField(field) ==> EditedValue(field, text) == Str(Text.Strip(text))
    ensures !TextField(field) ==> (EditedValue(field, text).List?
      && forall k :: 0 <= k < |EditedValue(field, text).xs| ==> IsItem(EditedValue(field, text).xs[k]))
  {
    ParseItemsAreItems(Text.Strip(text));
  }

  /**
    Confirming a deletion always clears the pending brand and ends the
    dialogue; the brand is removed only on "YES" (any case) and only if it
    is still there, and nothing else changes.
   */
  lemma DeleteConfirmFacts(u: UserData, b: Brands, text: string)
    requires Valid(b)
    ensures var st := DeleteConfirmStep(u, b, text);
      st.next == End && st.user == u.(deleteBrand := None) && Valid(st.brands)
    ensures var st := DeleteConfirmStep(u, b, text);
      if Truthy(u.deleteBrand) && Text.Upper(Text.Strip(text)) == Yes() && u.deleteBrand.value in b.configs
      then st.brands == Delete(b, u.deleteBrand.value) && u.deleteBrand.value !in st.brands.configs
           && forall n :: n in b.configs && n != u.deleteBrand.value ==> n in st.brands.configs && st.brands.configs[n] == b.configs[n]
      else st.brands == b
  {
    if Truthy(u.deleteBrand) {
      DeleteValid(b, u.deleteBrand.value);
    }
  }

  /**
    The pending record is stored under its name, without the `Name` key
    and with the stripped description, and leaves `user_data`; every other
    brand stays as it was.
   */
  lemma AddDescriptionFacts(u: UserData, b: Brands, text: string)
    requires Valid(b)
    ensures var st := AddDescription(u, b, text);
      st.next == End && st.user.newBrand.None? && Valid(st.brands)
    ensures var st := AddDescription(u, b, text);
      if u.newBrand.Some? && Name in u.newBrand.value && u.newBrand.value[Name].Str? then
        var data := u.newBrand.value;
        var name := data[Name].s;
        name in st.brands.configs
        && Name !in st.brands.configs[name]
        && st.brands.configs[name][Description] == Str(Text.Strip(text))
        && (forall k :: k in data && k != Name && k != Description ==>
              k in st.brands.configs[name] && st.brands.configs[name][k] == data[k])
        && (forall n :: n in b.configs && n != name ==> st.brands.configs[n] == b.configs[n])
      else st.brands == b
  {
    var st := AddDescription(u, b, text);
    if u.newBrand.Some? && Name in u.newBrand.value && u.newBrand.value[Name].Str? {
      var data := u.newBrand.value;
      var name := data[Name].s;
      assert st == Step(u.(newBrand := None), Put(b, name, Stored(data, Text.Strip(text))), End);
      PutValid(b, name, Stored(data, Text.Strip(text)));
      StoredFacts(data, Text.Strip(text));
    } else {
      assert st.brands == b;
    }
  }

  /** What `Stored` keeps of a pending record. */
  lemma StoredFacts(data: Config, description: string)
    ensures var c := Stored(data, description);
      Name !in c && Description in c && c[Description] == Str(description)
      && forall k :: k in data && k != Name && k != Description ==> k in c && c[k] == data[k]
  {
  }

  /** The answers of one whole `/research_add` dialogue. */
  datatype Answers = Answers(name: string, category: string, keywords: string, productTerms: string,
                             competitors: string, subredditHints: string, description: string)

  /** `add_start` and the five questions before the description, in dialogue order. */
  function AnswerAll(u: UserData, b: Brands, a: Answers): Step {
    var s1 := AddStart(u, b, true);
    var s2 := AddBrandName(s1.user, s1.brands, a.name);
    var s3 := AddCategory(s2.user, s2.brands, a.category);
    var s4 := AddList(s3.user, s3.brands, Keywords, AskProductTerms, a.keywords);
    var s5 := AddList(s4.user, s4.brands, ProductTerms, AskCompetitors, a.productTerms);
    var s6 := AddList(s5.user, s5.brands, Competitors, AskSubredditHints, a.competitors);
    AddList(s6.user, s6.brands, SubredditHints, AskDescription, a.subredditHints)
  }

  /** A whole `/research_add` dialogue. */
  function AddDialogue(u: UserData, b: Brands, a: Answers): Step {
    var st := AnswerAll(u, b, a);
    AddDescription(st.user, st.brands, a.description)
  }

  /** A pending record with all six answers in. */
  function Record(name: string, category: string, keywords: seq<string>, productTerms: seq<string>,
                  competitors: seq<string>, subredditHints: seq<string>): Config {
    map[Name := Str(name)][Category := Str(category)][Keywords := List(keywords)]
      [ProductTerms := List(productTerms)][Competitors := List(competitors)][SubredditHints := List(subredditHints)]
  }

  /** The stored form of a full record: the five answers and the description, and no name. */
  lemma StoredRecord(name: string, category: string, keywords: seq<string>, productTerms: seq<string>,
                     competitors: seq<string>, subredditHints: seq<string>, description: string)
    ensures var c := Stored(Record(name, category, keywords, productTerms, competitors, subredditHints), description);
      Name !in c && Category in c && Keywords in c && ProductTerms in c && Competitors in c
      && SubredditHints in c && Description in c
      && c[Category] == Str(category) && c[Keywords] == List(keywords) && c[ProductTerms] == List(productTerms)
      && c[Competitors] == List(competitors) && c[SubredditHints] == List(subredditHints)
      && c[Description] == Str(description)
  {
    var r := Record(name, category, keywords, productTerms, competitors, subredditHints);
    assert r[Category] == Str(category) && r[Keywords] == List(keywords) && r[ProductTerms] == List(productTerms);
    assert r[Competitors] == List(competitors) && r[SubredditHints] == List(subredditHints);
    StoredFacts(r, description);
  }


  /** The pending record just before `add_description`. */
  function Pending(a: Answers): Config {
    Record(Text.Strip(a.name), Text.Lower(Text.Strip(a.category)), ParseListAnswer(a.keywords),
           ParseListAnswer(a.productTerms), ParseListAnswer(a.competitors), ParseListAnswer(a.subredditHints))
  }

  /** The config a completed `/research_add` dialogue stores. */
  function NewConfig(a: Answers): Config {
    Stored(Pending(a), Text.Strip(a.description))
  }

  /** Before the description, the dialogue has only built the pending record. */
  lemma AnswerAllPending(u: UserData, b: Brands, a: Answers)
    ensures AnswerAll(u, b, a) == Step(u.(newBrand := Some(Pending(a))), b, AskDescription)
  {
  }

  /**
    A completed `/research_add` dialogue stores, under the stripped name,
    the six answers in their parsed form, whatever the user's entries were
    before it started.
   */
  lemma AddDialogueStores(u: UserData, b: Brands, a: Answers)
    requires Valid(b)
    ensures var st := AddDialogue(u, b, a);
      st.next == End && st.user.newBrand.None? && Valid(st.brands)
      && st.brands == Put(b, Text.Strip(a.name), NewConfig(a))
  {
    AnswerAllPending(u, b, a);
    var p := Pending(a);
    var name := Text.Strip(a.name);
    RecordName(name, Text.Lower(Text.Strip(a.category)), ParseListAnswer(a.keywords),
               ParseListAnswer(a.productTerms), ParseListAnswer(a.competitors), ParseListAnswer(a.subredditHints));
    var u1 := u.(newBrand := Some(p));
    assert AddDialogue(u, b, a) == AddDescription(u1, b, a.description);
    assert AddDescription(u1, b, a.description) == Step(u1.(newBrand := None), Put(b, name, NewConfig(a)), End);
    PutValid(b, name, NewConfig(a));
  }

  /** A full record is stored under the name it holds. */
  lemma RecordName(name: string, category: string, keywords: seq<string>, productTerms: seq<string>,
                   competitors: seq<string>, subredditHints: seq<string>)
    ensures var r := Record(name, category, keywords, productTerms, competitors, subredditHints);
      Name in r && r[Name] == Str(name)
  {
  }

  /** `/research_delete <query>` for a query that matches no brand ends at once and changes nothing. */
  lemma DeleteUnknownBrand(u: UserData, b: Brands, args: seq<string>)
    requires Valid(b) && args != []
    requires Lookup(b, Query(args)).None?
    ensures DeleteStart(u, b, true, args) == Step(u, b, End)
  {
  }

  /**
    Answering "yes" (in any case, with any padding) to `/research_delete
    <query>` removes the brand the lookup found.
   */
  lemma DeleteDialogue(u: UserData, b: Brands, args: seq<string>, answer: string)
    requires Valid(b) && args != []
    requires Lookup(b, Query(args)).Some? && Lookup(b, Query(args)).value != ""
    requires Text.Upper(Text.Strip(answer)) == Yes()
    ensures var s1 := DeleteStart(u, b, true, args);
      s1.next == ConfirmDelete && s1.brands == b
      && DeleteConfirmStep(s1.user, s1.brands, answer)
         == Step(u.(deleteBrand := None), Delete(b, Lookup(b, Query(args)).value), End)
  {
    var q := Query(args);
    var m := Lookup(b, q);
    FirstMatchIn(b.names, q);
    assert m == FirstMatch(b.names, q);
    assert m.value in b.configs;
    var s1 := DeleteStart(u, b, true, args);
    assert s1 == Step(u.(deleteBrand := m), b, ConfirmDelete);
    assert Truthy(s1.user.deleteBrand);
    assert s1.user.(deleteBrand := None) == u.(deleteBrand := None);
  }
  // ---------------------------------------------------------------------
  // The report of a research run that found no posts
  // ---------------------------------------------------------------------

  /** How many source errors the report lists before summing up the rest. */
  const MaxErrorsShown: nat := 5

  function Header(brand: string): string {
    "No posts found for " + brand + " in the last 3 months."
  }

  function ErrorsTitle(): string { "Source errors encountered:" }

  function Bullet(err: string): string { "- " + err }

  function Bullets(errors: seq<string>): (r: seq<string>)
    ensures |r| == |errors| && forall k :: 0 <= k < |errors| ==> r[k] == Bullet(errors[k])
  {
    seq(|errors|, k requires 0 <= k < |errors| => Bullet(errors[k]))
  }

  function More(n: nat): string {
    "... and " + Text.NatToString(n) + " more"
  }

  /** `errors[:5]` */
  function Shown(errors: seq<string>): seq<string> {
    if |errors| <= MaxErrorsShown then errors else errors[..MaxErrorsShown]
  }

  /** The lines of the report, top to bottom. */
  function NoPostsLines(brand: string, errors: seq<string>): seq<string> {
    [Header(brand)]
    + if errors == [] then []
      else ["", ErrorsTitle()] + Bullets(Shown(errors))
           + (if |errors| > MaxErrorsShown then [More(|errors| - MaxErrorsShown)] else [])
  }

  function Newline(): string { "\n" }

  lemma {:induction false} JoinSnoc(parts: seq<string>, x: string, sep: string)
    requires parts != []
    ensures Text.Join(parts + [x], sep) == Text.Join(parts, sep) + sep + x
    decreases |parts|
  {
    if |parts| == 1 {
      assert parts + [x] == [parts[0], x];
      assert Text.Join([x], sep) == x;
    } else {
      assert (parts + [x])[1..] == parts[1..] + [x];
      JoinSnoc(parts[1..], x, sep);
    }
  }

  /** Appends one bullet line per error to a message already holding `lines`. */
  method AppendBullets(msg0: string, ghost lines: seq<string>, shown: seq<string>) returns (msg: string)
    requires lines != [] && msg0 == Text.Join(lines, Newline())
    ensures msg == Text.Join(lines + Bullets(shown), Newline())
  {
    msg := msg0;
    assert lines + Bullets(shown[..0]) == lines;
    for i := 0 to |shown|
      invariant msg == Text.Join(lines + Bullets(shown[..i]), Newline())
    {
      JoinSnoc(lines + Bullets(shown[..i]), Bullet(shown[i]), Newline());
      assert lines + Bullets(shown[..i + 1]) == (lines + Bullets(shown[..i])) + [Bullet(shown[i])];
      msg := msg + Newline() + Bullet(shown[i]);
    }
    assert shown[..|shown|] == shown;
  }

  /**
    The corrected message (bot.py:223-231, reading the errors the fetcher
    collected): the header, then, when there were errors, a blank line, a
    title, the first five errors as bullets and a count of the rest.
   */
  method NoPostsMessage(brand: string, errors: seq<string>) returns (msg: string)
    ensures msg == Text.Join(NoPostsLines(brand, errors), Newline())
  {
    msg := Header(brand);
    ghost var lines := [Header(brand)];
    assert msg == Text.Join(lines, Newline());
    if |errors| > 0 {
      JoinSnoc(lines, "", Newline());
      JoinSnoc(lines + [""], ErrorsTitle(), Newline());
      assert lines + [""] + [ErrorsTitle()] == lines + ["", ErrorsTitle()];
      msg := msg + Newline() + "" + Newline() + ErrorsTitle();
      lines := lines + ["", ErrorsTitle()];
      var shown := Shown(errors);
      msg := AppendBullets(msg, lines, shown);
      lines := lines + Bullets(shown);
      if |errors| > MaxErrorsShown {
        JoinSnoc(lines, More(|errors| - MaxErrorsShown), Newline());
        msg := msg + Newline() + More(|errors| - MaxErrorsShown);
        lines := lines + [More(|errors| - MaxErrorsShown)];
      }
      assert lines == NoPostsLines(brand, errors);
    }
  }
  /** The shape of the report: what comes after the header, and how many errors are shown. */
  lemma NoPostsLinesShape(brand: string, errors: seq<string>)
    ensures var lines := NoPostsLines(brand, errors);
      && lines[0] == Header(brand)
      && (errors == [] <==> |lines| == 1)
      && (errors != [] ==>
            var n := if |errors| <= MaxErrorsShown then |errors| else MaxErrorsShown;
            && lines[1] == "" && lines[2] == ErrorsTitle()
            && |lines| == 3 + n + (if |errors| > MaxErrorsShown then 1 else 0)
            && (forall k :: 0 <= k < n ==> lines[3 + k] == Bullet(errors[k]))
            && (|errors| > MaxErrorsShown ==> lines[|lines| - 1] == More(|errors| - MaxErrorsShown)))
  {
  }

  /** The count on the last line reads back as the number of errors left unshown. */
  lemma MoreCount(errors: seq<string>)
    requires |errors| > MaxErrorsShown
    ensures var m := More(|errors| - MaxErrorsShown);
      var digits := m[8..|m| - 5];
      (forall i :: 0 <= i < |digits| ==> Text.IsDigit(digits[i]))
      && Text.ParseNat(digits) + MaxErrorsShown == |errors|
  {
    var d := Text.NatToString(|errors| - MaxErrorsShown);
    var m := More(|errors| - MaxErrorsShown);
    assert m == "... and " + d + " more";
    assert m[8..|m| - 5] == d;
    Text.ParseNatToString(|errors| - MaxErrorsShown);
  }

  lemma NoNewlineInFixedLines(brand: string, n: nat)
    requires '\n' !in brand
    ensures '\n' !in Header(brand) && '\n' !in ErrorsTitle() && '\n' !in More(n)
  {
    var d := Text.NatToString(n);
    assert forall i :: 0 <= i < |d| ==> d[i] != '\n';
  }

  /**
    Splitting the report at its line breaks gives back its lines, as long
    as the brand and the errors are single lines themselves.
   */
  lemma NoPostsSplit(brand: string, errors: seq<string>)
    requires '\n' !in brand
    requires forall k :: 0 <= k < |errors| ==> '\n' !in errors[k]
    ensures Text.Split(Text.Join(NoPostsLines(brand, errors), Newline()), '\n')
            == NoPostsLines(brand, errors)
  {
    var lines := NoPostsLines(brand, errors);
    NoNewlineInFixedLines(brand, if |errors| > MaxErrorsShown then |errors| - MaxErrorsShown else 0);
    NoPostsLinesShape(brand, errors);
    forall k | 0 <= k < |lines|
      ensures '\n' !in lines[k]
    {
      if k >= 3 && k - 3 < |Shown(errors)| {
        assert lines[k] == "- " + errors[k - 3];
      }
    }
    assert Newline() == ['\n'];
    Text.SplitJoin(lines, '\n');
  }

  // ---------------------------------------------------------------------
  // The same report as bot.py:222-231 reads it
  // ---------------------------------------------------------------------

  /**
    The attributes of a `MultiSourceFetcher`: its constructor sets the
    three source fetchers (fetcher.py:407-410) and nothing adds more.
   */
  function FetcherAttributes(): set<string> {
    {"arctic", "reddit", "pullpush"}
  }

  /** What the user is sent: the report, or the pipeline's failure message (bot.py:363-365). */
  datatype Report = Sent(text: string) | Failed(text: string)

  function MissingErrors(): string {
    "Research failed: 'MultiSourceFetcher' object has no attribute 'errors'"
  }

  /**
    bot.py:222-231 as written: the report reads `fetcher.errors`, an
    attribute the fetcher does not have, so the lookup raises and the
    pipeline's handler reports the failure instead.
   */
  function NoPostsReportAsWritten(brand: string, attributes: set<string>, errors: seq<string>): Report {
    if "errors" in attributes then Sent(Text.Join(NoPostsLines(brand, errors), Newline()))
    else Failed(MissingErrors())
  }

  /** The no-posts report is never sent as written: every run without posts ends in the failure message. */
  lemma NoPostsReportNeverSent(brand: string, errors: seq<string>)
    ensures NoPostsReportAsWritten(brand, FetcherAttributes(), errors) == Failed(MissingErrors())
  {
    assert "errors" != "arctic" && "errors" != "reddit" && "errors" != "pullpush";
  }

  /** The corrected report, built from the errors the fetcher collected. */
  method NoPostsReport(brand: string, errors: seq<string>) returns (r: Report)
    ensures r.Sent? && r.text == Text.Join(NoPostsLines(brand, errors), Newline())
  {
    var msg := NoPostsMessage(brand, errors);
    r := Sent(msg);
  }
}
