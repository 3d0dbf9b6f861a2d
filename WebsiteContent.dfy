/** pages/dashboard/website-content.js: the editor for a restaurant's public
    website. The settings are loaded once (missing parts filled with
    defaults), edited in place through hero slides, social links, opening
    hours and theme colours, and saved as a whole. */
module WebsiteContent {
  import opened Common

  /** A field of a hero slide: text, or the `isActive` check box. */
  datatype Value = Text(s: string) | Flag(b: bool)

  /** A hero slide: its fields by name. */
  type Slide = map<string, Value>

  const DefaultSlide: Slide := map[
    "title" := Text(""),
    "subtitle" := Text(""),
    "imageUrl" := Text(""),
    "buttonText" := Text("Order Now"),
    "buttonLink" := Text(""),
    "isActive" := Flag(true)
  ]

  const DefaultPrimary := "#EF4444"
  const DefaultSecondary := "#FFA500"
  const DefaultTheme: map<string, string> := map["primary" := DefaultPrimary, "secondary" := DefaultSecondary]

  const Days: seq<string> := ["monday", "tuesday", "wednesday", "thursday", "friday", "saturday", "sunday"]
  const SocialNetworks: seq<string> := ["facebook", "instagram", "twitter", "youtube"]

  /** The settings as the backend returns them: each part may be missing
      (None); other fields are carried along untouched in `rest`. */
  datatype RawSettings = RawSettings(heroSlides: Option<seq<Slide>>, socialMedia: Option<map<string, string>>,
                                     openingHours: Option<map<string, string>>, themeColors: Option<map<string, string>>,
                                     rest: map<string, string>)

  /** The settings the page edits. */
  datatype Settings = Settings(heroSlides: seq<Slide>, socialMedia: map<string, string>,
                               openingHours: map<string, string>, themeColors: map<string, string>,
                               rest: map<string, string>)

  /** loadSettings: every missing part gets its default; present parts,
      even empty ones, are kept. */
  function WithDefaults(data: RawSettings): (s: Settings)
    ensures s.heroSlides == (if data.heroSlides.Some? then data.heroSlides.value else [])
    ensures s.socialMedia == (if data.socialMedia.Some? then data.socialMedia.value else map[])
    ensures s.openingHours == (if data.openingHours.Some? then data.openingHours.value else map[])
    ensures s.themeColors == (if data.themeColors.Some? then data.themeColors.value else DefaultTheme)
    ensures s.rest == data.rest
  {
    Settings(if data.heroSlides.Some? then data.heroSlides.value else [],
             if data.socialMedia.Some? then data.socialMedia.value else map[],
             if data.openingHours.Some? then data.openingHours.value else map[],
             if data.themeColors.Some? then data.themeColors.value else DefaultTheme,
             data.rest)
  }

  /** The text a settings input shows: `part?.[key] || fallback`. */
  function Shown(part: map<string, string>, key: string, fallback: string): string {
    if key in part && part[key] != "" then part[key] else fallback
  }

  /** A restaurant without theme colours is shown, and saved, with the
      colours its inputs fall back to; one without social links or hours
      shows every input empty. */
  lemma DefaultsAgreeWithInputs(data: RawSettings)
    requires data.themeColors.None? && data.socialMedia.None? && data.openingHours.None?
    ensures Shown(WithDefaults(data).themeColors, "primary", DefaultPrimary) == DefaultPrimary
    ensures Shown(WithDefaults(data).themeColors, "secondary", DefaultSecondary) == DefaultSecondary
    ensures WithDefaults(data).themeColors == map["primary" := "#EF4444", "secondary" := "#FFA500"]
    ensures forall k :: k in SocialNetworks ==> Shown(WithDefaults(data).socialMedia, k, "") == ""
    ensures forall k :: k in Days ==> Shown(WithDefaults(data).openingHours, k, "") == ""
  {
  }

  /** addHeroSlide: one default slide at the end. */
  function AppendSlide(s: Settings): (r: Settings)
    ensures r.heroSlides == s.heroSlides + [DefaultSlide]
    ensures r.(heroSlides := s.heroSlides) == s
  {
    s.(heroSlides := s.heroSlides + [DefaultSlide])
  }

  /** updateHeroSlide(index, field, value): `{ ...slide, [field]: value }`
      for the slide at that index. */
  function UpdateSlide(s: Settings, index: int, field: string, value: Value): Settings {
    s.(heroSlides := seq(|s.heroSlides|, i requires 0 <= i < |s.heroSlides| =>
         if i == index then s.heroSlides[i][field := value] else s.heroSlides[i]))
  }

  /** Updating a slide changes one field of one slide: every other field of
      it, every other slide, the number of slides and the rest of the
      settings stay. An index out of range changes nothing. */
  lemma UpdateSlideSpec(s: Settings, index: int, field: string, value: Value)
    ensures var r := UpdateSlide(s, index, field, value);
      |r.heroSlides| == |s.heroSlides| && r.(heroSlides := s.heroSlides) == s
      && (0 <= index < |s.heroSlides| ==>
            field in r.heroSlides[index] && r.heroSlides[index][field] == value
            && forall f :: f != field ==>
                 (f in r.heroSlides[index] <==> f in s.heroSlides[index])
                 && (f in s.heroSlides[index] ==> r.heroSlides[index][f] == s.heroSlides[index][f]))
      && (forall i :: 0 <= i < |s.heroSlides| && i != index ==> r.heroSlides[i] == s.heroSlides[i])
    ensures !(0 <= index < |s.heroSlides|) ==> UpdateSlide(s, index, field, value) == s
  {
  }

  /** `slides.filter((_, i) => i !== index)`: the slides at every position
      but `index`, counting from the front. */
  function DropIndex(slides: seq<Slide>, index: int): seq<Slide> {
    if slides == [] then [] else (if index == 0 then [] else [slides[0]]) + DropIndex(slides[1..], index - 1)
  }

  /** Dropping an index removes exactly the slide there and keeps the
      others in order; an index out of range changes nothing. */
  lemma {:induction false} DropIndexSpec(slides: seq<Slide>, index: int)
    ensures 0 <= index < |slides| ==> DropIndex(slides, index) == slides[..index] + slides[index + 1..]
    ensures !(0 <= index < |slides|) ==> DropIndex(slides, index) == slides
  {
    if slides != [] {
      DropIndexSpec(slides[1..], index - 1);
      if index == 0 {
        assert slides[..0] + slides[1..] == slides[1..];
      } else if 0 < index < |slides| {
        assert slides[1..][..index - 1] == slides[1..index];
        assert slides[1..][index..] == slides[index + 1..];
        assert [slides[0]] + slides[1..index] == slides[..index];
      } else {
        assert [slides[0]] + slides[1..] == slides;
      }
    }
  }

  /** removeHeroSlide(index): the slide at that index leaves, the others
      keep their order, and nothing else changes. */
  function RemoveSlide(s: Settings, index: int): (r: Settings)
    ensures 0 <= index < |s.heroSlides| ==> r.heroSlides == s.heroSlides[..index] + s.heroSlides[index + 1..]
    ensures !(0 <= index < |s.heroSlides|) ==> r == s
    ensures r.(heroSlides := s.heroSlides) == s
  {
    DropIndexSpec(s.heroSlides, index);
    s.(heroSlides := DropIndex(s.heroSlides, index))
  }

  /** Removing the slide just added gives back the settings as they were. */
  lemma RemoveUndoesAppend(s: Settings)
    ensures RemoveSlide(AppendSlide(s), |s.heroSlides|) == s
  {
    var slides := AppendSlide(s).heroSlides;
    assert slides[..|s.heroSlides|] + slides[|s.heroSlides| + 1..] == s.heroSlides;
  }

  /** The three maps a text input can edit. */
  datatype Part = SocialMedia | OpeningHours | ThemeColors

  function PartOf(s: Settings, part: Part): map<string, string> {
    match part
    case SocialMedia => s.socialMedia
    case OpeningHours => s.openingHours
    case ThemeColors => s.themeColors
  }

  /** `{ ...prev, [part]: { ...prev[part], [key]: value } }`. */
  function SetKey(s: Settings, part: Part, key: string, value: string): Settings {
    match part
    case SocialMedia => s.(socialMedia := s.socialMedia[key := value])
    case OpeningHours => s.(openingHours := s.openingHours[key := value])
    case ThemeColors => s.(themeColors := s.themeColors[key := value])
  }

  /** An edit sets one key of one part: the input then shows what was typed
      (or its fallback for an empty value), every other key and every other
      part stay. */
  lemma SetKeySpec(s: Settings, part: Part, key: string, value: string, fallback: string)
    ensures var r := SetKey(s, part, key, value);
      PartOf(r, part) == PartOf(s, part)[key := value]
      && Shown(PartOf(r, part), key, fallback) == (if value != "" then value else fallback)
      && (forall k :: k != key ==>
            (k in PartOf(r, part) <==> k in PartOf(s, part))
            && (k in PartOf(s, part) ==> PartOf(r, part)[k] == PartOf(s, part)[k]))
      && forall other :: other != part ==> PartOf(r, other) == PartOf(s, other)
    ensures SetKey(s, part, key, value).heroSlides == s.heroSlides && SetKey(s, part, key, value).rest == s.rest
  {
  }

  /** What handleSave reports. */
  datatype SaveResult = Saved | SaveFailed(message: string)

  /** The alert text of handleSave. */
  function SaveAlert(r: SaveResult): string {
    match r
    case Saved => "Website content saved successfully!"
    case SaveFailed(message) => "Failed to save: " + message
  }

  /** The state of the website content page; `settings` is None until
      loaded, and the editors are shown only once it is loaded. */
  class WebsiteContentPage {
    var settings: Option<Settings>
    var saving: bool
    var activeTab: string

    constructor ()
      ensures settings == None && !saving && activeTab == "hero"
    {
      settings := None;
      saving := false;
      activeTab := "hero";
    }

    /** loadSettings, with the backend's answer (None when it failed, which
        leaves the page loading). */
    method LoadSettings(data: Option<RawSettings>)
      modifies this
      ensures settings == if data.Some? then Some(WithDefaults(data.value)) else old(settings)
      ensures saving == old(saving) && activeTab == old(activeTab)
    {
      if data.None? { return; }
      settings := Some(WithDefaults(data.value));
    }

    /** handleSave, with how the PUT ends. Returns the settings sent and
        the alert shown, or None before the settings are loaded. */
    method HandleSave(result: SaveResult) returns (sent: Option<Settings>, alert: Option<string>)
      modifies this
      ensures old(settings).None? ==> sent.None? && alert.None? && unchanged(this)
      ensures old(settings).Some? ==> sent == old(settings) && alert == Some(SaveAlert(result)) && !saving
      ensures settings == old(settings) && activeTab == old(activeTab)
    {
      if settings.None? {
        return None, None;
      }
      saving := true;
      sent := settings;
      alert := Some(SaveAlert(result));
      saving := false;
    }

    method AddHeroSlide()
      requires settings.Some?
      modifies this
      ensures settings == Some(AppendSlide(old(settings).value))
      ensures saving == old(saving) && activeTab == old(activeTab)
    {
      settings := Some(AppendSlide(settings.value));
    }

    method UpdateHeroSlide(index: int, field: string, value: Value)
      requires settings.Some?
      modifies this
      ensures settings == Some(UpdateSlide(old(settings).value, index, field, value))
      ensures saving == old(saving) && activeTab == old(activeTab)
    {
      settings := Some(UpdateSlide(settings.value, index, field, value));
    }

    method RemoveHeroSlide(index: int)
      requires settings.Some?
      modifies this
      ensures settings == Some(RemoveSlide(old(settings).value, index))
      ensures saving == old(saving) && activeTab == old(activeTab)
    {
      settings := Some(RemoveSlide(settings.value, index));
    }

    /** The onChange of a social link, opening hours or colour input. */
    method EditKey(part: Part, key: string, value: string)
      requires settings.Some?
      modifies this
      ensures settings == Some(SetKey(old(settings).value, part, key, value))
      ensures saving == old(saving) && activeTab == old(activeTab)
    {
      settings := Some(SetKey(settings.value, part, key, value));
    }
  }
}
