/**
 * The backend (`server.js`): the headline template table, the two chained
 * placeholder replaces, the fabricated metrics and the validation guards of
 * `POST /business-data` and `GET /regenerate-headline`. Each random draw is a
 * parameter; the response delay and the clock are left out, the current
 * time arriving as an opaque string.
 */
module Server {
  import opened Wrappers
  import opened Strings
  import opened Random
  import opened Payloads

  const NameSlot: string := "{name}"
  const LocationSlot: string := "{location}"

  /**
   * A headline template, stored as the fixed text before `{name}`, between
   * the two placeholders, and after `{location}`.
   */
  datatype Template = Template(pre: string, mid: string, post: string) {

    /** The template string as it appears in the table. */
    function Text(): string {
      pre + NameSlot + mid + LocationSlot + post
    }

    /** The fixed text holds no `{`, so no further placeholder hides in it. */
    predicate WellFormed() {
      Lacks(pre, '{') && Lacks(mid, '{') && Lacks(post, '{')
    }
  }

  /** The templates of the table, numbered in table order. */
  const Template0: Template := Template("Why ", " is ", "'s Best Kept Secret in 2025")
  const Template1: Template := Template("How ", " Became ", "'s Top-Rated Local Business")
  const Template2: Template := Template("The Ultimate Guide to ", " in ", ": What You Need to Know")
  const Template3: Template := Template("Why ", " is Transforming ", "'s Local Scene")
  const Template4: Template := Template("5 Reasons ", " is ", "'s Most Trusted Choice")
  const Template5: Template := Template("Behind the Success: How ", " Dominates ", "'s Market")
  const Template6: Template := Template("The ", " Effect: Why ", " Locals Can't Get Enough")
  const Template7: Template := Template("From Local to Legend: ", "'s Journey in ", "")
  const Template8: Template := Template("What Makes ", " ", "'s Hidden Gem?")
  const Template9: Template := Template("The ", " Advantage: Why ", " Residents Choose Us")

  /** The ten headline templates, in table order. */
  const HeadlineTemplates: seq<Template> := [
    Template0, Template1, Template2, Template3, Template4,
    Template5, Template6, Template7, Template8, Template9
  ]

  /** Where a `{` can stand in a well-formed template: at the start of a placeholder. */
  lemma OpenBraces(t: Template, i: int)
    requires t.WellFormed()
    requires 0 <= i < |t.Text()| && t.Text()[i] == '{'
    ensures i == |t.pre| || i == |t.pre| + |NameSlot| + |t.mid|
  {
  }

  /** `{name}` occurs in a well-formed template only at the end of the leading text. */
  lemma NameSlotOnce(t: Template)
    requires t.WellFormed()
    ensures Occurrences(t.Text(), NameSlot) == {|t.pre|}
  {
    var s := t.Text();
    var n := |t.pre|;
    assert s == t.pre + NameSlot + (t.mid + LocationSlot + t.post);
    assert s[n..n + |NameSlot|] == NameSlot;
    assert s[n + |NameSlot| + |t.mid| + 1] == 'l';
    forall i | i in Occurrences(s, NameSlot) ensures i == n {
      assert s[i..i + |NameSlot|][0] == s[i];
      assert s[i..i + |NameSlot|][1] == s[i + 1];
      OpenBraces(t, i);
    }
  }

  /** `{location}` occurs in a well-formed template only after the middle text. */
  lemma LocationSlotOnce(t: Template)
    requires t.WellFormed()
    ensures Occurrences(t.Text(), LocationSlot) == {|t.pre| + |NameSlot| + |t.mid|}
  {
    var s := t.Text();
    var l := |t.pre| + |NameSlot| + |t.mid|;
    assert s == (t.pre + NameSlot + t.mid) + LocationSlot + t.post;
    assert s[l..l + |LocationSlot|] == LocationSlot;
    assert s[|t.pre| + 1] == 'n';
    forall i | i in Occurrences(s, LocationSlot) ensures i == l {
      assert s[i..i + |LocationSlot|][0] == s[i];
      assert s[i..i + |LocationSlot|][1] == s[i + 1];
      OpenBraces(t, i);
    }
  }

  /**
   * A well-formed template holds `{name}` exactly once and `{location}`
   * exactly once, `{name}` first.
   */
  lemma PlaceholdersOnce(t: Template)
    requires t.WellFormed()
    ensures Occurrences(t.Text(), NameSlot) == {|t.pre|}
    ensures Occurrences(t.Text(), LocationSlot) == {|t.pre| + |NameSlot| + |t.mid|}
    ensures |t.pre| < |t.pre| + |NameSlot| + |t.mid|
  {
    NameSlotOnce(t);
    LocationSlotOnce(t);
  }

  // One lemma per entry keeps each check of the literals small.

  lemma Template0WellFormed()
    ensures Template0.WellFormed()
  {
    assert Lacks("Why ", '{');
    assert Lacks(" is ", '{');
    assert Lacks("'s Best Kept Secret in 2025", '{');
  }

  lemma Template1WellFormed()
    ensures Template1.WellFormed()
  {
    assert Lacks("How ", '{');
    assert Lacks(" Became ", '{');
    assert Lacks("'s Top-Rated Local Business", '{');
  }

  lemma Template2WellFormed()
    ensures Template2.WellFormed()
  {
    assert Lacks("The Ultimate Guide to ", '{');
    assert Lacks(" in ", '{');
    assert Lacks(": What You Need to Know", '{');
  }

  lemma Template3WellFormed()
    ensures Template3.WellFormed()
  {
    assert Lacks("Why ", '{');
    assert Lacks(" is Transforming ", '{');
    assert Lacks("'s Local Scene", '{');
  }

  lemma Template4WellFormed()
    ensures Template4.WellFormed()
  {
    assert Lacks("5 Reasons ", '{');
    assert Lacks(" is ", '{');
    assert Lacks("'s Most Trusted Choice", '{');
  }

  lemma Template5WellFormed()
    ensures Template5.WellFormed()
  {
    assert Lacks("Behind the Success: How ", '{');
    assert Lacks(" Dominates ", '{');
    assert Lacks("'s Market", '{');
  }

  lemma Template6WellFormed()
    ensures Template6.WellFormed()
  {
    assert Lacks("The ", '{');
    assert Lacks(" Effect: Why ", '{');
    assert Lacks(" Locals Can't Get Enough", '{');
  }

  lemma Template7WellFormed()
    ensures Template7.WellFormed()
  {
    assert Lacks("From Local to Legend: ", '{');
    assert Lacks("'s Journey in ", '{');
    assert Lacks("", '{');
  }

  lemma Template8WellFormed()
    ensures Template8.WellFormed()
  {
    assert Lacks("What Makes ", '{');
    assert Lacks(" ", '{');
    assert Lacks("'s Hidden Gem?", '{');
  }

  lemma Template9WellFormed()
    ensures Template9.WellFormed()
  {
    assert Lacks("The ", '{');
    assert Lacks(" Advantage: Why ", '{');
    assert Lacks(" Residents Choose Us", '{');
  }

  /** Every entry of the table is well formed. */
  lemma TableWellFormed()
    ensures |HeadlineTemplates| == 10
    ensures forall i :: 0 <= i < |HeadlineTemplates| ==> HeadlineTemplates[i].WellFormed()
  {
    Template0WellFormed();
    Template1WellFormed();
    Template2WellFormed();
    Template3WellFormed();
    Template4WellFormed();
    Template5WellFormed();
    Template6WellFormed();
    Template7WellFormed();
    Template8WellFormed();
    Template9WellFormed();
  }

  /**
   * Each of the ten templates holds `{name}` once and `{location}` once,
   * `{name}` first.
   */
  lemma TemplateTableShape()
    ensures forall i :: 0 <= i < |HeadlineTemplates| ==>
      Occurrences(HeadlineTemplates[i].Text(), NameSlot) == {|HeadlineTemplates[i].pre|}
    ensures forall i :: 0 <= i < |HeadlineTemplates| ==>
      Occurrences(HeadlineTemplates[i].Text(), LocationSlot)
        == {|HeadlineTemplates[i].pre| + |NameSlot| + |HeadlineTemplates[i].mid|}
  {
    TableWellFormed();
    forall i | 0 <= i < |HeadlineTemplates|
      ensures Occurrences(HeadlineTemplates[i].Text(), NameSlot) == {|HeadlineTemplates[i].pre|}
      ensures Occurrences(HeadlineTemplates[i].Text(), LocationSlot)
        == {|HeadlineTemplates[i].pre| + |NameSlot| + |HeadlineTemplates[i].mid|}
    {
      PlaceholdersOnce(HeadlineTemplates[i]);
    }
  }

  /** `template.replace('{name}', name).replace('{location}', location)`. */
  function Fill(template: string, name: string, location: string): (r: string)
    ensures (forall j :: !OccursAt(template, NameSlot, j)) && (forall j :: !OccursAt(template, LocationSlot, j))
      ==> r == template
  {
    ReplaceFirst(ReplaceFirst(template, NameSlot, name), LocationSlot, location)
  }

  /** The first replace puts a `$`-free name where `{name}` stood. */
  lemma NameReplaced(t: Template, name: string)
    requires t.WellFormed()
    requires Lacks(name, '$')
    ensures ReplaceFirst(t.Text(), NameSlot, name) == t.pre + name + t.mid + LocationSlot + t.post
  {
    var rest := t.mid + LocationSlot + t.post;
    assert t.Text() == t.pre + NameSlot + rest;
    NoEarlyOccurrence(t.pre, NameSlot, rest, '{');
    ReplaceFirstAt(t.pre, NameSlot, rest, name);
  }

  /**
   * For inputs without `{` in the name and without `$` in either, the
   * headline is the template with the name and the location in place of
   * the two placeholders.
   */
  lemma FillShape(t: Template, name: string, location: string)
    requires t.WellFormed()
    requires Lacks(name, '{')
    requires Lacks(name, '$') && Lacks(location, '$')
    ensures Fill(t.Text(), name, location) == t.pre + name + t.mid + location + t.post
  {
    var front := t.pre + name + t.mid;
    calc {
      Fill(t.Text(), name, location);
    ==
      ReplaceFirst(ReplaceFirst(t.Text(), NameSlot, name), LocationSlot, location);
    == { NameReplaced(t, name); }
      ReplaceFirst(front + LocationSlot + t.post, LocationSlot, location);
    == {
         LacksAppend(t.pre, name, '{');
         LacksAppend(t.pre + name, t.mid, '{');
         ReplaceFirstAfterFree(front, LocationSlot, t.post, location, '{');
       }
      front + location + t.post;
    }
  }

  /**
   * A name that itself contains `{location}` takes the second replace: the
   * first copy inside the name is rewritten and the template's own
   * `{location}` is left in the headline.
   */
  lemma LocationSlotInName(t: Template, name: string, location: string)
    requires t.WellFormed()
    requires Lacks(name, '$') && Lacks(location, '$')
    requires IndexOf(name, LocationSlot).Some?
    ensures Fill(t.Text(), name, location)
         == t.pre + ReplaceFirst(name, LocationSlot, location) + t.mid + LocationSlot + t.post
  {
    var rest := t.mid + LocationSlot + t.post;
    NameReplaced(t, name);
    GroupTail(t.pre, name, t.mid, LocationSlot, t.post);
    ReplaceFirstInside(t.pre, name, rest, LocationSlot, location);
    GroupTail(t.pre, ReplaceFirst(name, LocationSlot, location), t.mid, LocationSlot, t.post);
  }

  /**
   * A name of `$&` is expanded by the replace into the matched text, so the
   * headline shows the `{name}` placeholder itself.
   */
  lemma DollarPatternInName(t: Template, location: string)
    requires t.WellFormed()
    requires Lacks(location, '$')
    ensures Fill(t.Text(), "$&", location) == t.pre + NameSlot + t.mid + location + t.post
  {
    DollarNameKeepsTemplate(t);
    LocationReplaced(t, location);
  }

  /** The first replace with `$&` puts the matched `{name}` back: the template is unchanged. */
  lemma DollarNameKeepsTemplate(t: Template)
    requires t.WellFormed()
    ensures ReplaceFirst(t.Text(), NameSlot, "$&") == t.Text()
  {
    var rest := t.mid + LocationSlot + t.post;
    GroupTail(t.pre, NameSlot, t.mid, LocationSlot, t.post);
    NoEarlyOccurrence(t.pre, NameSlot, rest, '{');
    ReplaceFirstAtSub(t.pre, NameSlot, rest, "$&");
    MatchedPattern(NameSlot, t.pre, rest);
  }

  /** Replacing `{location}` in a template's own text fills its slot. */
  lemma LocationReplaced(t: Template, location: string)
    requires t.WellFormed()
    requires Lacks(location, '$')
    ensures ReplaceFirst(t.Text(), LocationSlot, location) == t.pre + NameSlot + t.mid + location + t.post
  {
    var front := t.pre + NameSlot + t.mid;
    assert t.Text() == front + LocationSlot + t.post;
    LocationSlotOnce(t);
    forall j | 0 <= j < |front| ensures !OccursAt(t.Text(), LocationSlot, j) {
      assert OccursAt(t.Text(), LocationSlot, j) ==> j in Occurrences(t.Text(), LocationSlot);
    }
    ReplaceFirstAt(front, LocationSlot, t.post, location);
  }

  /** `Math.floor(r * headlineTemplates.length)`: the template a draw selects. */
  function TemplateIndex(d: Draw): (i: nat)
    requires d.Valid()
    ensures i < |HeadlineTemplates|
  {
    Scale(d, |HeadlineTemplates|)
  }

  /** A draw of the form k / 1024, a value `Math.random` can return, that lands in slot `i`. */
  function TemplateDraw(i: nat): Draw {
    Draw((1024 * i + 9) / 10, 1024)
  }

  /** The draw `TemplateDraw(i)` selects template `i`, so every template can be chosen. */
  lemma EveryTemplateSelectable(i: nat)
    requires i < |HeadlineTemplates|
    ensures TemplateDraw(i).Valid() && TemplateIndex(TemplateDraw(i)) == i
  {
    var d := TemplateDraw(i);
    assert 1024 * i <= 10 * d.num <= 1024 * i + 9;
    var r := TemplateIndex(d);
    assert r * 1024 <= 1024 * i + 9 && 1024 * i < (r + 1) * 1024;
  }

  /** The headline a template draw produces for the given inputs. */
  function Headline(d: Draw, name: string, location: string): (h: string)
    requires d.Valid()
    ensures h in PossibleHeadlines(name, location)
  {
    Fill(HeadlineTemplates[TemplateIndex(d)].Text(), name, location)
  }

  /** Every headline either endpoint can produce for the given inputs. */
  function PossibleHeadlines(name: string, location: string): set<string> {
    set i | 0 <= i < |HeadlineTemplates| :: Fill(HeadlineTemplates[i].Text(), name, location)
  }

  /** The headlines produced are exactly the filled-in templates. */
  lemma HeadlinesArePossible(name: string, location: string)
    ensures forall d: Draw | d.Valid() :: Headline(d, name, location) in PossibleHeadlines(name, location)
    ensures forall h | h in PossibleHeadlines(name, location) ::
      exists i: nat | i < 10 :: Headline(TemplateDraw(i), name, location) == h
  {
    forall h | h in PossibleHeadlines(name, location)
      ensures exists i: nat | i < 10 :: Headline(TemplateDraw(i), name, location) == h
    {
      var i :| 0 <= i < |HeadlineTemplates| && Fill(HeadlineTemplates[i].Text(), name, location) == h;
      EveryTemplateSelectable(i);
    }
  }

  /** The three draws of one `generateBusinessData` call, in call order. */
  datatype Draws = Draws(rating: Draw, reviews: Draw, template: Draw) {
    predicate Valid() {
      rating.Valid() && reviews.Valid() && template.Valid()
    }
  }

  /** `generateBusinessData(name, location)`, stamped with the time `now`. */
  function GenerateBusinessData(name: string, location: string, draws: Draws, now: string): (b: BusinessData)
    requires draws.Valid()
    ensures 35 <= b.rating <= 50
    ensures 50 <= b.reviews <= 549
    ensures b.headline in PossibleHeadlines(name, location)
    ensures b.lastUpdated == now
    ensures b.rating == RatingTenths(draws.rating) && b.reviews == ReviewCount(draws.reviews)
    ensures b.headline == Headline(draws.template, name, location)
  {
    HeadlinesArePossible(name, location);
    BusinessData(RatingTenths(draws.rating), ReviewCount(draws.reviews), Headline(draws.template, name, location), now)
  }

  /**
   * For ordinary inputs the generated headline holds the name and, after
   * it, the location, each at the place of its placeholder.
   */
  lemma GeneratedHeadlineHoldsInputs(name: string, location: string, draws: Draws, now: string)
    requires draws.Valid()
    requires Lacks(name, '{')
    requires Lacks(name, '$') && Lacks(location, '$')
    ensures var t := HeadlineTemplates[TemplateIndex(draws.template)];
      var h := GenerateBusinessData(name, location, draws, now).headline;
      h == t.pre + name + t.mid + location + t.post &&
      OccursAt(h, name, |t.pre|) &&
      OccursAt(h, location, |t.pre| + |name| + |t.mid|)
  {
    var t := HeadlineTemplates[TemplateIndex(draws.template)];
    var h := GenerateBusinessData(name, location, draws, now).headline;
    assert h == Headline(draws.template, name, location);
    HeadlineShape(draws.template, name, location);
    PartsOccur(t.pre, name, t.mid, location, t.post);
  }

  /** The headline a draw produces, for inputs that cannot disturb the replaces. */
  lemma HeadlineShape(d: Draw, name: string, location: string)
    requires d.Valid()
    requires Lacks(name, '{')
    requires Lacks(name, '$') && Lacks(location, '$')
    ensures var t := HeadlineTemplates[TemplateIndex(d)];
      Headline(d, name, location) == t.pre + name + t.mid + location + t.post
  {
    TableWellFormed();
    FillShape(HeadlineTemplates[TemplateIndex(d)], name, location);
  }

  /** A request field as the handler reads it: missing (undefined or null) or a string. */
  type Param = Option<string>

  /** JavaScript truthiness of a field: the falsy values are exactly a missing field and the empty string. */
  function Truthy(p: Param): (b: bool)
    ensures !b <==> p == None || p == Some("")
  {
    match p
    case None => false
    case Some(v) => |v| > 0
  }

  const RequiredError: string := "Business name and location are required"

  /** A handler's response: a 200 with a body, or a 400 with an error message. */
  datatype Reply<T> = Ok(body: T) | BadRequest(error: string)

  /** `POST /business-data` with body fields `name` and `location`. */
  function BusinessDataEndpoint(name: Param, location: Param, draws: Draws, now: string): (r: Reply<BusinessData>)
    requires draws.Valid()
    ensures r.BadRequest? <==> !Truthy(name) || !Truthy(location)
    ensures r.BadRequest? ==> r.error == RequiredError
    ensures r.Ok? ==> 35 <= r.body.rating <= 50 && 50 <= r.body.reviews <= 549
    ensures r.Ok? ==> r.body.headline in PossibleHeadlines(name.value, location.value)
    ensures r.Ok? ==> r.body == GenerateBusinessData(name.value, location.value, draws, now)
  {
    if !Truthy(name) || !Truthy(location) then BadRequest(RequiredError)
    else Ok(GenerateBusinessData(name.value, location.value, draws, now))
  }

  /** `GET /regenerate-headline` with query parameters `name` and `location`. */
  function RegenerateHeadlineEndpoint(name: Param, location: Param, template: Draw, now: string): (r: Reply<HeadlineBody>)
    requires template.Valid()
    ensures r.BadRequest? <==> !Truthy(name) || !Truthy(location)
    ensures r.BadRequest? ==> r.error == RequiredError
    ensures r.Ok? ==> r.body.headline in PossibleHeadlines(name.value, location.value)
    ensures r.Ok? ==> r.body.generatedAt == now
  {
    if !Truthy(name) || !Truthy(location) then BadRequest(RequiredError)
    else
      HeadlinesArePossible(name.value, location.value);
      Ok(HeadlineBody(Headline(template, name.value, location.value), now))
  }

  /**
   * Both endpoints select and fill templates the same way: with the same
   * template draw they return the same headline, and each can return every
   * headline of the set.
   */
  lemma EndpointsShareHeadlines(name: string, location: string, draws: Draws, now: string, later: string)
    requires draws.Valid()
    requires name != "" && location != ""
    ensures BusinessDataEndpoint(Some(name), Some(location), draws, now).body.headline
         == RegenerateHeadlineEndpoint(Some(name), Some(location), draws.template, later).body.headline
    ensures forall h | h in PossibleHeadlines(name, location) ::
      exists i: nat | i < 10 ::
        RegenerateHeadlineEndpoint(Some(name), Some(location), TemplateDraw(i), later).body.headline == h &&
        BusinessDataEndpoint(Some(name), Some(location), draws.(template := TemplateDraw(i)), now).body.headline == h
  {
    HeadlinesArePossible(name, location);
  }

  /** Fields made only of white space are truthy, so both endpoints accept them. */
  lemma WhiteSpaceAccepted(name: string, location: string, draws: Draws, now: string)
    requires draws.Valid()
    requires name != "" && AllWhiteSpace(name)
    requires location != "" && AllWhiteSpace(location)
    ensures BusinessDataEndpoint(Some(name), Some(location), draws, now).Ok?
    ensures RegenerateHeadlineEndpoint(Some(name), Some(location), draws.template, now).Ok?
  {
  }
}
