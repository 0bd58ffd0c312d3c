/** cardUtils.ts: the spoken text of a reply, and the card directives that
    the handlers write, as JSON.stringify'd values, into the `variables`
    object sent to the avatar. */
module CardUtils {
  import opened Wrappers
  import opened Dicts
  import opened Json
  import opened JsStrings
  import opened Assistant

  /** The `variables` object of one response: card names to serialized cards. */
  class Variables {
    var entries: Dict<Serialized>

    /** `let variables = {}`. */
    constructor ()
      ensures entries == []
    {
      entries := [];
    }

    /** `variables[k] = v`. */
    method Set(k: string, v: Serialized)
      modifies this
      ensures entries == Put(old(entries), k, v)
    {
      entries := Put(entries, k, v);
    }
  }

  // ----- handleSpokenReturn -----

  /** What one generic item adds to the spoken text. */
  function Piece(item: Item): string
  {
    if item.responseType == "text" then " " + Shown(item.text)
    else if item.responseType == "search" then " " + Shown(item.header)
    else ""
  }

  /** The pieces of all items, in order. */
  function Pieces(items: seq<Item>): string
  {
    if items == [] then "" else Piece(items[0]) + Pieces(items[1..])
  }

  /** The accumulator after the `forEach` has visited `items`, starting from `s`. */
  function Spoken(items: seq<Item>, s: string): string
  {
    if items == [] then s else Spoken(items[1..], s + Piece(items[0]))
  }

  /** The fold appends each item's piece after the starting text. */
  lemma {:induction false} SpokenIsPrefixed(items: seq<Item>, s: string)
    ensures Spoken(items, s) == s + Pieces(items)
  {
    if items != [] {
      SpokenIsPrefixed(items[1..], s + Piece(items[0]));
      assert (s + Piece(items[0])) + Pieces(items[1..]) == s + (Piece(items[0]) + Pieces(items[1..]));
    }
  }

  /** Folding two runs of items is folding the second onto the first's result. */
  lemma {:induction false} SpokenAppend(a: seq<Item>, b: seq<Item>, s: string)
    ensures Spoken(a + b, s) == Spoken(b, Spoken(a, s))
  {
    if a == [] {
      assert a + b == b;
    } else {
      assert (a + b)[1..] == a[1..] + b;
      SpokenAppend(a[1..], b, s + Piece(a[0]));
    }
  }

  /** Items other than `text` and `search` add nothing. */
  lemma SpokenSkipsOthers(items: seq<Item>, item: Item, s: string)
    requires item.responseType != "text" && item.responseType != "search"
    ensures Spoken(items + [item], s) == Spoken(items, s)
  {
    SpokenAppend(items, [item], s);
    assert [item][1..] == [];
  }

  /** `handleSpokenReturn`: `spokenReturn` is extended once per generic item. */
  method HandleSpokenReturn(r: Reply, s: string) returns (spoken: string)
    ensures spoken == Spoken(r.generic, s)
    ensures spoken == s + Pieces(r.generic)
  {
    var items := r.generic;
    spoken := s;
    for i := 0 to |items|
      invariant Spoken(items[i..], spoken) == Spoken(items, s)
    {
      assert items[i..][1..] == items[i + 1..] && items[i..][0] == items[i];
      ghost var next := spoken + Piece(items[i]);
      if items[i].responseType == "text" {
        assert spoken + " " + Shown(items[i].text) == spoken + Piece(items[i]);
        spoken := spoken + " " + Shown(items[i].text);
      }
      if items[i].responseType == "search" {
        assert spoken + " " + Shown(items[i].header) == spoken + Piece(items[i]);
        spoken := spoken + " " + Shown(items[i].header);
      }
      assert spoken == next;
    }
    assert items[|items|..] == [];
    SpokenIsPrefixed(items, s);
  }

  // ----- _publicPrefix -----

  /** `item.replace('_', '-')`: only the first underscore becomes a dash. */
  function Rename(k: string): string
  {
    ReplaceFirst(k, '_', '-')
  }

  /** `_publicPrefix(item)`. */
  predicate PublicPrefix(k: string)
  {
    FirstSegment(Rename(k), '-') == "public"
  }

  /** A key passes exactly when it is "public", or "public" followed by a
      dash or an underscore and anything. */
  lemma PublicPrefixIff(k: string)
    ensures PublicPrefix(k) <==>
      (k == "public" || (|k| > 6 && k[..6] == "public" && (k[6] == '-' || k[6] == '_')))
  {
    var r := Rename(k);
    assert '_' !in "public" && '-' !in "public";
    if |k| > 6 && k[..6] == "public" && (k[6] == '-' || k[6] == '_') {
      assert r[..6] == "public" && r[6] == '-' by {
        if '_' in k {
          var j := IndexOf(k, '_').value;
          assert r == k[..j] + ['-'] + k[j + 1..];
          assert r[..6] == k[..6];
        }
      }
      assert IndexOf(r, '-') == Some(6);
    }
    if PublicPrefix(k) {
      match IndexOf(r, '-')
      case None =>
        assert r == "public";
      case Some(i) =>
        assert r[..i] == "public";
        assert i == 6 && r[6] == '-';
        if '_' in k {
          var j := IndexOf(k, '_').value;
          assert r == k[..j] + ['-'] + k[j + 1..];
          if j == 6 {
            assert k[..6] == r[..6];
          } else {
            assert k[..7] == r[..7];
          }
        }
    }
  }

  /** "public", "public_x" and "public-x" pass; "publicx" and "_public" do not. */
  lemma PublicPrefixExamples(plain: string, underscore: string, dash: string, runOn: string, leading: string)
    requires plain == "public" && underscore == "public_x" && dash == "public-x"
    requires runOn == "publicx" && leading == "_public"
    ensures PublicPrefix(plain) && PublicPrefix(underscore) && PublicPrefix(dash)
    ensures !PublicPrefix(runOn) && !PublicPrefix(leading)
  {
    PublicPrefixIff(plain);
    assert PublicPrefix(underscore) by {
      PublicPrefixIff(underscore);
      assert underscore[..6] == "public" && underscore[6] == '_';
    }
    assert PublicPrefix(dash) by {
      PublicPrefixIff(dash);
      assert dash[..6] == "public" && dash[6] == '-';
    }
    assert !PublicPrefix(runOn) by {
      PublicPrefixIff(runOn);
      assert runOn[6] == 'x';
    }
    assert !PublicPrefix(leading) by {
      PublicPrefixIff(leading);
      assert leading[0] == '_';
    }
  }

  // ----- the cards -----

  function Card(fields: seq<(string, Json)>): Serialized
  {
    Stringify(JObj(fields))
  }

  /** The `public-browserIdSet` card. */
  function BrowserIdCard(id: string): Serialized
  {
    Card([("data", JObj([("id", JStr(id))])), ("component", JStr("browserIdSet"))])
  }

  /** The `public-search` card of one search item. */
  function SearchCard(item: Item, id: string): Serialized
  {
    var data := if TruthyOpt(item.primaryResults) then item.primaryResults.value else JArr([]);
    Card([("data", JObj([("data", data)])), ("component", JStr("search")), ("id", JStr(id))])
  }

  /** The `public-customExtensionCard` card. */
  function CustomExtensionCard(name: string, id: string): Serialized
  {
    Card([("data", JObj([("name", JStr(name))])), ("component", JStr("customExtensionCard")),
          ("type", JStr("customExtensionCard")), ("id", JStr(id))])
  }

  /** The `public-neuralSeekLink` card. */
  function NeuralSeekLinkCard(link: string, id: string): Serialized
  {
    Card([("data", JObj([("link", JStr(link))])), ("component", JStr("neuralSeekLink")),
          ("type", JStr("neuralSeekLink")), ("id", JStr(id))])
  }

  // ----- context selection and _setBrowserId -----

  /** `skills['actions skill']?.skill_variables`. */
  function ActionVariables(r: Reply): Option<Json>
  {
    if r.actionsSkill.Some? then r.actionsSkill.value.skillVariables else None
  }

  /** `skills['main skill']?.user_defined`. */
  function DialogVariables(r: Reply): Option<Json>
  {
    if r.mainSkill.Some? then r.mainSkill.value.userDefined else None
  }

  /** `resContext`: the actions skill's variables when truthy, else the main
      skill's `user_defined`. */
  function SelectContext(r: Reply): (c: Option<Json>)
    ensures TruthyOpt(ActionVariables(r)) ==> c == ActionVariables(r)
    ensures !TruthyOpt(ActionVariables(r)) ==> c == DialogVariables(r)
  {
    var action := ActionVariables(r);
    if TruthyOpt(action) then action else DialogVariables(r)
  }

  /** A context is selected (truthy) exactly when one of the two is truthy. */
  lemma SelectContextTruthy(r: Reply)
    ensures TruthyOpt(SelectContext(r)) <==> TruthyOpt(ActionVariables(r)) || TruthyOpt(DialogVariables(r))
  {
  }

  /** The variables after `_setBrowserId`. */
  function BrowserIdStep(ctx: Option<Json>, vars: Dict<Serialized>, id: string): Dict<Serialized>
  {
    if TruthyOpt(ctx) && TruthyOpt(Member(ctx.value, "browserIdSet")) then
      Put(vars, "public-browserIdSet", BrowserIdCard(id))
    else vars
  }

  /** `_setBrowserId`. */
  method SetBrowserId(ctx: Option<Json>, vars: Variables, id: string)
    modifies vars
    ensures vars.entries == BrowserIdStep(ctx, old(vars.entries), id)
  {
    if TruthyOpt(ctx) && TruthyOpt(Member(ctx.value, "browserIdSet")) {
      vars.Set("public-browserIdSet", BrowserIdCard(id));
    }
  }

  // ----- _addCardIfVariableFound -----

  /** The key test of `_addCardIfVariableFound`. */
  predicate Eligible(k: string, v: Json)
  {
    PublicPrefix(k) && Truthy(v) && TruthyOpt(Member(v, "data"))
  }

  /** `resContext[item]['id'] ? resContext[item]['id'] : resContext[item]['type']`. */
  function CardId(v: Json): Option<Json>
  {
    if TruthyOpt(Member(v, "id")) then Member(v, "id") else Member(v, "type")
  }

  /** The context entry after `data.id = id` and `data.cardId = ...`. Assigning
      a property of an array adds nothing JSON.stringify shows; assigning one
      of a primitive throws a TypeError in strict mode. An undefined `cardId`
      is left out of the serialization, as if deleted. */
  function Annotate(v: Json, id: string): Result<Json>
  {
    match v
    case JObj(fields) =>
      var d: Option<Json> := Get(fields, "data");
      (match d
       case Some(JObj(data)) =>
         var withId := Put(data, "id", JStr(id));
         var c := CardId(v);
         var annotated := if c.Some? then Put(withId, "cardId", c.value) else Delete(withId, "cardId");
         Ok(JObj(Put(fields, "data", JObj(annotated))))
       case Some(JArr(_)) => Ok(v)
       case _ => Err("TypeError"))
    case _ => Err("TypeError")
  }

  /** What the annotation does to an object `data`: it gains `id` and the
      card id, and every other field of the entry stays as it was. */
  lemma AnnotateObject(v: Json, id: string)
    requires v.JObj? && Member(v, "data").Some? && Member(v, "data").value.JObj?
    ensures Annotate(v, id).Ok?
    ensures Member(Member(Annotate(v, id).value, "data").value, "id") == Some(JStr(id))
    ensures Member(Member(Annotate(v, id).value, "data").value, "cardId") == CardId(v)
    ensures forall k :: k != "data" ==> Member(Annotate(v, id).value, k) == Member(v, k)
  {
  }

  /** An entry that passes the key test throws exactly when its `data` is a
      (truthy) primitive. */
  lemma AnnotateFails(k: string, v: Json, id: string)
    requires Eligible(k, v)
    ensures Annotate(v, id).Err? <==> !(Member(v, "data").value.JObj? || Member(v, "data").value.JArr?)
  {
  }

  /** The serialized card of an entry, when annotating it does not throw. */
  function EntryCard(v: Json, id: string): Option<Serialized>
  {
    match Annotate(v, id)
    case Ok(a) => Some(Stringify(a))
    case Err(_) => None
  }

  /** The entry as annotated, when annotating it does not throw. */
  function Annotated(v: Json, id: string): Json
  {
    match Annotate(v, id)
    case Ok(a) => a
    case Err(_) => v
  }

  /** Variables, context entries and whether a TypeError ended the loop. */
  datatype CardsOutcome = CardsOutcome(vars: Dict<Serialized>, fields: seq<(string, Json)>, failed: bool)

  /** The `forEach` over the context's keys, from `vars`. When an entry throws,
      the variables hold what earlier entries wrote. */
  function ContextCards(fields: seq<(string, Json)>, vars: Dict<Serialized>, id: string): CardsOutcome
  {
    if fields == [] then CardsOutcome(vars, [], false)
    else
      var k := fields[0].0;
      var v := fields[0].1;
      if !Eligible(k, v) then
        var rest := ContextCards(fields[1..], vars, id);
        rest.(fields := [(k, v)] + rest.fields)
      else match Annotate(v, id)
        case Err(_) => CardsOutcome(vars, fields, true)
        case Ok(a) =>
          var rest := ContextCards(fields[1..], Put(vars, Rename(k), Stringify(a)), id);
          rest.(fields := [(k, a)] + rest.fields)
  }

  /** The last entry that passes the key test and is written under `name`. */
  function LastNamed(fields: seq<(string, Json)>, name: string): (r: Option<nat>)
    ensures r.Some? ==>
      r.value < |fields| && Eligible(fields[r.value].0, fields[r.value].1) && Rename(fields[r.value].0) == name
    ensures r.Some? ==> forall j :: r.value < j < |fields| ==>
      !(Eligible(fields[j].0, fields[j].1) && Rename(fields[j].0) == name)
    ensures r.None? ==> forall j :: 0 <= j < |fields| ==>
      !(Eligible(fields[j].0, fields[j].1) && Rename(fields[j].0) == name)
  {
    if fields == [] then None
    else match LastNamed(fields[1..], name)
      case Some(i) => Some(i + 1)
      case None =>
        if Eligible(fields[0].0, fields[0].1) && Rename(fields[0].0) == name then Some(0) else None
  }

  /** A variable is written under `name` exactly by the eligible entries with
      that renamed key, the last one winning; other variables keep their value. */
  lemma {:induction false} ContextCardsGet(fields: seq<(string, Json)>, vars: Dict<Serialized>, id: string, name: string)
    requires !ContextCards(fields, vars, id).failed
    ensures Get(ContextCards(fields, vars, id).vars, name) ==
      match LastNamed(fields, name)
      case Some(i) => EntryCard(fields[i].1, id)
      case None => Get(vars, name)
  {
    if fields != [] {
      var k := fields[0].0;
      var v := fields[0].1;
      if !Eligible(k, v) {
        ContextCardsGet(fields[1..], vars, id, name);
      } else {
        var a := Annotate(v, id).value;
        ContextCardsGet(fields[1..], Put(vars, Rename(k), Stringify(a)), id, name);
      }
    }
  }

  /** The loop throws exactly when some eligible entry's annotation throws. */
  lemma {:induction false} ContextCardsFailIff(fields: seq<(string, Json)>, vars: Dict<Serialized>, id: string)
    ensures ContextCards(fields, vars, id).failed <==>
      exists i :: 0 <= i < |fields| && Eligible(fields[i].0, fields[i].1) && Annotate(fields[i].1, id).Err?
  {
    if fields != [] {
      var k := fields[0].0;
      var v := fields[0].1;
      if !Eligible(k, v) {
        ContextCardsFailIff(fields[1..], vars, id);
        assert forall i :: 0 < i < |fields| ==> fields[i] == fields[1..][i - 1];
      } else if Annotate(v, id).Ok? {
        var a := Annotate(v, id).value;
        ContextCardsFailIff(fields[1..], Put(vars, Rename(k), Stringify(a)), id);
        assert forall i :: 0 < i < |fields| ==> fields[i] == fields[1..][i - 1];
      }
    }
  }

  /** The loop never removes a variable, even when it throws. */
  lemma {:induction false} ContextCardsKeeps(fields: seq<(string, Json)>, vars: Dict<Serialized>, id: string, name: string)
    requires Get(vars, name).Some?
    ensures Get(ContextCards(fields, vars, id).vars, name).Some?
  {
    if fields != [] {
      var k := fields[0].0;
      var v := fields[0].1;
      if !Eligible(k, v) {
        ContextCardsKeeps(fields[1..], vars, id, name);
      } else if Annotate(v, id).Ok? {
        var a := Annotate(v, id).value;
        ContextCardsKeeps(fields[1..], Put(vars, Rename(k), Stringify(a)), id, name);
      }
    }
  }

  /** After a loop that did not throw, the context holds the same keys, with
      eligible entries annotated and the others as they were. */
  lemma {:induction false} ContextCardsFields(fields: seq<(string, Json)>, vars: Dict<Serialized>, id: string)
    requires !ContextCards(fields, vars, id).failed
    ensures |ContextCards(fields, vars, id).fields| == |fields|
    ensures forall i :: 0 <= i < |fields| ==>
      ContextCards(fields, vars, id).fields[i] ==
        (fields[i].0, if Eligible(fields[i].0, fields[i].1) then Annotated(fields[i].1, id) else fields[i].1)
  {
    if fields != [] {
      var k := fields[0].0;
      var v := fields[0].1;
      var vars' := if Eligible(k, v) then Put(vars, Rename(k), Stringify(Annotated(v, id))) else vars;
      var rest := ContextCards(fields[1..], vars', id);
      ContextCardsFields(fields[1..], vars', id);
      var o := ContextCards(fields, vars, id);
      assert o.fields == [(k, if Eligible(k, v) then Annotated(v, id) else v)] + rest.fields;
      forall i | 0 < i < |fields|
        ensures o.fields[i] == (fields[i].0, if Eligible(fields[i].0, fields[i].1) then Annotated(fields[i].1, id) else fields[i].1)
      {
        assert fields[i] == fields[1..][i - 1];
        assert o.fields[i] == rest.fields[i - 1];
      }
    }
  }

  /** Variables, the (annotated) context and whether a TypeError was thrown. */
  datatype ContextOutcome = ContextOutcome(vars: Dict<Serialized>, context: Option<Json>, failed: bool)

  /** The effect of `_addCardIfVariableFound`. Only an object context has keys
      that can pass the test: the keys of a string or an array are indices. */
  function ContextCardsOf(ctx: Option<Json>, vars: Dict<Serialized>, id: string): ContextOutcome
  {
    if TruthyOpt(ctx) && ctx.value.JObj? then
      var o := ContextCards(ctx.value.fields, vars, id);
      ContextOutcome(o.vars, Some(JObj(o.fields)), o.failed)
    else ContextOutcome(vars, ctx, false)
  }

  /** One step of the key loop: an entry that fails the key test is kept as it is. */
  lemma ContextCardsSkips(fields: seq<(string, Json)>, i: nat, vars: Dict<Serialized>, id: string, done: seq<(string, Json)>)
    requires i < |fields| && !Eligible(fields[i].0, fields[i].1)
    ensures var here, next := ContextCards(fields[i..], vars, id), ContextCards(fields[i + 1..], vars, id);
      here.(fields := done + here.fields) == next.(fields := (done + [fields[i]]) + next.fields)
  {
    assert fields[i..][1..] == fields[i + 1..];
    var next := ContextCards(fields[i + 1..], vars, id);
    assert done + ([fields[i]] + next.fields) == (done + [fields[i]]) + next.fields;
  }

  /** One step of the key loop: an eligible entry is annotated and its card written. */
  lemma ContextCardsWrites(fields: seq<(string, Json)>, i: nat, vars: Dict<Serialized>, id: string, done: seq<(string, Json)>,
                           a: Json)
    requires i < |fields| && Eligible(fields[i].0, fields[i].1) && Annotate(fields[i].1, id) == Ok(a)
    ensures var here := ContextCards(fields[i..], vars, id);
      var next := ContextCards(fields[i + 1..], Put(vars, Rename(fields[i].0), Stringify(a)), id);
      here.(fields := done + here.fields) == next.(fields := (done + [(fields[i].0, a)]) + next.fields)
  {
    assert fields[i..][1..] == fields[i + 1..];
    var next := ContextCards(fields[i + 1..], Put(vars, Rename(fields[i].0), Stringify(a)), id);
    assert done + ([(fields[i].0, a)] + next.fields) == (done + [(fields[i].0, a)]) + next.fields;
  }

  /** One step of the key loop: an eligible entry whose annotation throws ends it. */
  lemma ContextCardsThrows(fields: seq<(string, Json)>, i: nat, vars: Dict<Serialized>, id: string)
    requires i < |fields| && Eligible(fields[i].0, fields[i].1) && Annotate(fields[i].1, id).Err?
    ensures ContextCards(fields[i..], vars, id) == CardsOutcome(vars, fields[i..], true)
  {
    assert fields[i..][0] == fields[i];
  }

  /** `_addCardIfVariableFound`: the loop visits the keys in order, writes a
      card for each eligible one and stops at the first TypeError. */
  method AddCardIfVariableFound(ctx: Option<Json>, vars: Variables, id: string)
    returns (context: Option<Json>, failed: bool)
    modifies vars
    ensures ContextOutcome(vars.entries, context, failed) == ContextCardsOf(ctx, old(vars.entries), id)
  {
    context, failed := ctx, false;
    if !(TruthyOpt(ctx) && ctx.value.JObj?) {
      return;
    }
    var fields := ctx.value.fields;
    ghost var whole := ContextCards(fields, vars.entries, id);
    var done: seq<(string, Json)> := [];
    var i := 0;
    while i < |fields|
      invariant 0 <= i <= |fields|
      invariant whole == ContextCards(fields[i..], vars.entries, id).(fields := done + ContextCards(fields[i..], vars.entries, id).fields)
    {
      var k := fields[i].0;
      var v := fields[i].1;
      if Eligible(k, v) {
        var a := Annotate(v, id);
        if a.Err? {
          ContextCardsThrows(fields, i, vars.entries, id);
          context, failed := Some(JObj(done + fields[i..])), true;
          return;
        }
        ContextCardsWrites(fields, i, vars.entries, id, done, a.value);
        vars.Set(Rename(k), Stringify(a.value));
        done := done + [(k, a.value)];
      } else {
        ContextCardsSkips(fields, i, vars.entries, id, done);
        done := done + [(k, v)];
      }
      i := i + 1;
    }
    assert fields[i..] == [];
    assert done + [] == done;
    context := Some(JObj(done));
  }

  // ----- _addCardActionForSearch -----

  /** The last search item. */
  function LastSearch(items: seq<Item>): (r: Option<nat>)
    ensures r.Some? ==> r.value < |items| && items[r.value].responseType == "search"
    ensures r.Some? ==> forall j :: r.value < j < |items| ==> items[j].responseType != "search"
    ensures r.None? ==> forall j :: 0 <= j < |items| ==> items[j].responseType != "search"
  {
    if items == [] then None
    else match LastSearch(items[1..])
      case Some(i) => Some(i + 1)
      case None => if items[0].responseType == "search" then Some(0) else None
  }

  /** The variables after `_addCardActionForSearch`. */
  function SearchCards(items: seq<Item>, vars: Dict<Serialized>, id: string): Dict<Serialized>
  {
    if items == [] then vars
    else
      var vars' := if items[0].responseType == "search" then Put(vars, "public-search", SearchCard(items[0], id)) else vars;
      SearchCards(items[1..], vars', id)
  }

  /** `public-search` holds the card of the last search item, if there is one. */
  lemma {:induction false} SearchCardsLast(items: seq<Item>, vars: Dict<Serialized>, id: string)
    ensures Get(SearchCards(items, vars, id), "public-search") ==
      if LastSearch(items).Some? then Some(SearchCard(items[LastSearch(items).value], id))
      else Get(vars, "public-search")
  {
    if items != [] {
      if items[0].responseType == "search" {
        var vars' := Put(vars, "public-search", SearchCard(items[0], id));
        assert SearchCards(items, vars, id) == SearchCards(items[1..], vars', id);
        SearchCardsLast(items[1..], vars', id);
      } else {
        assert SearchCards(items, vars, id) == SearchCards(items[1..], vars, id);
        SearchCardsLast(items[1..], vars, id);
      }
      if LastSearch(items[1..]).Some? {
        var i := LastSearch(items[1..]).value;
        assert items[1..][i] == items[i + 1];
      }
    }
  }

  /** The search loop writes no other variable. */
  lemma {:induction false} SearchCardsOther(items: seq<Item>, vars: Dict<Serialized>, id: string, name: string)
    requires name != "public-search"
    ensures Get(SearchCards(items, vars, id), name) == Get(vars, name)
  {
    if items != [] {
      var vars' := if items[0].responseType == "search" then Put(vars, "public-search", SearchCard(items[0], id)) else vars;
      SearchCardsOther(items[1..], vars', id, name);
    }
  }

  /** `_addCardActionForSearch`: every search item rewrites `public-search`. */
  method AddCardActionForSearch(r: Reply, vars: Variables, id: string)
    modifies vars
    ensures vars.entries == SearchCards(r.generic, old(vars.entries), id)
  {
    var items := r.generic;
    for i := 0 to |items|
      invariant SearchCards(items[i..], vars.entries, id) == SearchCards(items, old(vars.entries), id)
    {
      assert items[i..][1..] == items[i + 1..];
      if items[i].responseType == "search" {
        var data := if TruthyOpt(items[i].primaryResults) then items[i].primaryResults.value else JArr([]);
        vars.Set("public-search", Card([("data", JObj([("data", data)])), ("component", JStr("search")), ("id", JStr(id))]));
      }
    }
    assert items[|items|..] == [];
  }

  // ----- _addCustomExtenstionCard and _addNeuralSeekLinkCard -----

  /** `_addCustomExtenstionCard`. */
  method AddCustomExtensionCard(name: string, vars: Variables, id: string)
    modifies vars
    ensures vars.entries == Put(old(vars.entries), "public-customExtensionCard", CustomExtensionCard(name, id))
  {
    vars.Set("public-customExtensionCard", CustomExtensionCard(name, id));
  }

  /** `_addNeuralSeekLinkCard`. */
  method AddNeuralSeekLinkCard(link: string, vars: Variables, id: string)
    modifies vars
    ensures vars.entries == Put(old(vars.entries), "public-neuralSeekLink", NeuralSeekLinkCard(link, id))
  {
    vars.Set("public-neuralSeekLink", NeuralSeekLinkCard(link, id));
  }

  // ----- handleContextSkills -----

  /** The effect of `handleContextSkills`: browser id, then context cards, then
      the search card; a TypeError in the context loop skips the search card. */
  function ContextSkills(r: Reply, vars: Dict<Serialized>, id: string): ContextOutcome
  {
    var ctx := SelectContext(r);
    var cards := ContextCardsOf(ctx, BrowserIdStep(ctx, vars, id), id);
    if cards.failed then cards else cards.(vars := SearchCards(r.generic, cards.vars, id))
  }

  /** `handleContextSkills`. */
  method HandleContextSkills(r: Reply, vars: Variables, id: string) returns (context: Option<Json>, failed: bool)
    modifies vars
    ensures ContextOutcome(vars.entries, context, failed) == ContextSkills(r, old(vars.entries), id)
  {
    var dialogResponse := DialogVariables(r);
    var actionResponse := ActionVariables(r);
    var resContext := if TruthyOpt(actionResponse) then actionResponse else dialogResponse;
    SetBrowserId(resContext, vars, id);
    context, failed := AddCardIfVariableFound(resContext, vars, id);
    if !failed {
      AddCardActionForSearch(r, vars, id);
    }
  }

  /** With no selected context and no search item the variables are unchanged. */
  lemma ContextSkillsUnchanged(r: Reply, vars: Dict<Serialized>, id: string)
    requires !TruthyOpt(ActionVariables(r)) && !TruthyOpt(DialogVariables(r))
    requires forall i :: 0 <= i < |r.generic| ==> r.generic[i].responseType != "search"
    ensures ContextSkills(r, vars, id) == ContextOutcome(vars, SelectContext(r), false)
  {
    SelectContextTruthy(r);
    assert LastSearch(r.generic).None?;
    SearchCardsNoSearch(r.generic, vars, id);
  }

  /** Without search items the search loop writes nothing. */
  lemma {:induction false} SearchCardsNoSearch(items: seq<Item>, vars: Dict<Serialized>, id: string)
    requires forall i :: 0 <= i < |items| ==> items[i].responseType != "search"
    ensures SearchCards(items, vars, id) == vars
  {
    if items != [] {
      assert forall i :: 0 <= i < |items[1..]| ==> items[1..][i] == items[i + 1];
      SearchCardsNoSearch(items[1..], vars, id);
    }
  }

  /** No handler removes a variable: whatever was set stays set. */
  lemma ContextSkillsKeeps(r: Reply, vars: Dict<Serialized>, id: string, name: string)
    requires Get(vars, name).Some?
    ensures Get(ContextSkills(r, vars, id).vars, name).Some?
  {
    var ctx := SelectContext(r);
    var v1 := BrowserIdStep(ctx, vars, id);
    assert Get(v1, name).Some?;
    var cards := ContextCardsOf(ctx, v1, id);
    if TruthyOpt(ctx) && ctx.value.JObj? {
      ContextCardsKeeps(ctx.value.fields, v1, id, name);
    }
    if name == "public-search" {
      SearchCardsLast(r.generic, cards.vars, id);
    } else {
      SearchCardsOther(r.generic, cards.vars, id, name);
    }
  }

  /** Write order: the browser-id card is written first, so an eligible
      context entry renamed to `public-browserIdSet` overwrites it. */
  lemma ContextSkillsBrowserId(r: Reply, vars: Dict<Serialized>, id: string)
    requires TruthyOpt(SelectContext(r)) && SelectContext(r).value.JObj?
    requires TruthyOpt(Member(SelectContext(r).value, "browserIdSet"))
    requires !ContextSkills(r, vars, id).failed
    ensures Get(ContextSkills(r, vars, id).vars, "public-browserIdSet") ==
      match LastNamed(SelectContext(r).value.fields, "public-browserIdSet")
      case Some(i) => EntryCard(SelectContext(r).value.fields[i].1, id)
      case None => Some(BrowserIdCard(id))
  {
    var ctx := SelectContext(r);
    var v1 := BrowserIdStep(ctx, vars, id);
    assert Get(v1, "public-browserIdSet") == Some(BrowserIdCard(id));
    ContextCardsGet(ctx.value.fields, v1, id, "public-browserIdSet");
    SearchCardsOther(r.generic, ContextCardsOf(ctx, v1, id).vars, id, "public-browserIdSet");
  }

  /** The entries of the selected context that the key loop visits. */
  function ContextFields(r: Reply): seq<(string, Json)>
  {
    var ctx := SelectContext(r);
    if TruthyOpt(ctx) && ctx.value.JObj? then ctx.value.fields else []
  }

  /** Any variable other than the browser-id and search cards ends up with the
      card of the last eligible context entry written under its name, or
      keeps the value it had. */
  lemma ContextSkillsOther(r: Reply, vars: Dict<Serialized>, id: string, name: string)
    requires name != "public-search" && name != "public-browserIdSet"
    requires !ContextSkills(r, vars, id).failed
    ensures Get(ContextSkills(r, vars, id).vars, name) ==
      match LastNamed(ContextFields(r), name)
      case Some(i) => EntryCard(ContextFields(r)[i].1, id)
      case None => Get(vars, name)
  {
    var ctx := SelectContext(r);
    var v1 := BrowserIdStep(ctx, vars, id);
    assert Get(v1, name) == Get(vars, name);
    if TruthyOpt(ctx) && ctx.value.JObj? {
      ContextCardsGet(ctx.value.fields, v1, id, name);
    }
    SearchCardsOther(r.generic, ContextCardsOf(ctx, v1, id).vars, id, name);
  }
}
