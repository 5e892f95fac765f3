/** The top-level component (App.tsx): the state it keeps, the defaults it
    starts from, the handlers that change it, and the persisted settings.
    The browser's storage is a field holding the last saved settings;
    parsing and serialising JSON are left out, and what a stored value
    parses to is an input. */
module AppShell {
  import opened Wrappers
  import opened Seqs
  import opened Types

  // ---------------------------------------------------------------------
  // Defaults

  const DefaultChannels: seq<Channel> := [
    Channel("odyssee", None, "L’Odyssée des Premiers Hommes",
            "Préhistoire, évolution humaine, vie quotidienne des premiers hommes, archéologie.",
            "text-amber-500", false, Some(0.90), Some(15000)),
    Channel("archives", None, "Les Archives du Mystère",
            "Mystères historiques, énigmes, civilisations perdues, secrets non résolus.",
            "text-purple-500", false, Some(0.75), Some(25000)),
    Channel("science", None, "Et Si… La Science!",
            "Scénarios 'Et si', expériences de pensée, vulgarisation scientifique, futurisme.",
            "text-cyan-500", false, Some(1.50), Some(12000))
  ]

  const DefaultTemplates: seq<Template> := [
    Template("tpl_1", "Série Documentaire Historique",
             "Format chronologique pour L'Odyssée. Parfait pour raconter l'évolution étape par étape.",
             "odyssee", "L'évolution de l'homme", LongForm, Fr, true, None),
    Template("tpl_2", "Short Mystère Rapide",
             "Format court et percutant pour les énigmes non résolues.",
             "archives", "Objets anachroniques", Shorts, Fr, false, None),
    Template("tpl_3", "Concept Futuriste",
             "Exploration d'hypothèses scientifiques audacieuses.",
             "science", "Colonisation spatiale", LongForm, Fr, false, None)
  ]

  const DefaultWatermark: WatermarkSettings := WatermarkSettings(false, None, BottomRight, 0.8, 0.15)

  const EmptySlot: AssetConfig := AssetConfig(false, None, None)

  /** Every default template belongs to a default channel: the `i`-th
      template to the `i`-th channel. */
  lemma DefaultTemplatesHaveChannels()
    ensures forall i :: 0 <= i < |DefaultTemplates| ==>
              FindChannelById(DefaultChannels, DefaultTemplates[i].channelId) == Some(DefaultChannels[i])
  {
    forall i | 0 <= i < |DefaultTemplates|
      ensures FindChannelById(DefaultChannels, DefaultTemplates[i].channelId) == Some(DefaultChannels[i])
    {
      assert DefaultChannels[i].id == DefaultTemplates[i].channelId;
    }
  }

  /** The default channel ids are all different, and so are the default
      template ids. */
  lemma DefaultIdsDistinct()
    ensures forall i, j :: 0 <= i < j < |DefaultChannels| ==> DefaultChannels[i].id != DefaultChannels[j].id
    ensures forall i, j :: 0 <= i < j < |DefaultTemplates| ==> DefaultTemplates[i].id != DefaultTemplates[j].id
  {
  }

  // ---------------------------------------------------------------------
  // Persisted settings

  /** What the stored text under the settings key turns out to be: nothing
      (absent or empty), something `JSON.parse` or the field reads reject,
      or an object whose three fields may each be absent. */
  datatype Stored =
    | NothingStored
    | Unreadable
    | Parsed(channels: Option<seq<Channel>>, templates: Option<seq<Template>>,
             watermarkSettings: Option<WatermarkSettings>)

  /** The load on mount: each of the three settings is replaced only when
      the stored object has it; anything else keeps `current`. */
  function Restored(current: AppSettings, stored: Stored): (r: AppSettings)
    ensures !stored.Parsed? ==> r == current
    ensures stored.Parsed? ==>
              && r.channels == (if stored.channels.Some? then stored.channels.value else current.channels)
              && r.templates == (if stored.templates.Some? then stored.templates.value else current.templates)
              && r.watermarkSettings ==
                   (if stored.watermarkSettings.Some? then stored.watermarkSettings.value else current.watermarkSettings)
  {
    match stored
    case Parsed(c, t, w) =>
      AppSettings(if c.Some? then c.value else current.channels,
                  if t.Some? then t.value else current.templates,
                  if w.Some? then w.value else current.watermarkSettings)
    case _ => current
  }

  /** What the save writes: the object with exactly the three settings, so
      that loading it gives them back whatever the state loaded into. */
  function Saved(s: AppSettings): (r: Stored)
    ensures r.Parsed?
    ensures forall current :: Restored(current, r) == s
  {
    Parsed(Some(s.channels), Some(s.templates), Some(s.watermarkSettings))
  }

  /** Loading is idempotent: a second load of the same stored value
      changes nothing more. */
  lemma LoadTwice(current: AppSettings, stored: Stored)
    ensures Restored(Restored(current, stored), stored) == Restored(current, stored)
  {
  }

  // ---------------------------------------------------------------------
  // The component

  class App {
    var currentView: View
    var isSidebarOpen: bool
    var channels: seq<Channel>
    var templates: seq<Template>
    var watermarkSettings: WatermarkSettings
    var projects: seq<GeneratedAsset>
    var introOutroSettings: IntroOutroSettings
    var musicLibrary: seq<MusicTrack>
    var selectedTemplate: Option<Template>
    /** The value under the settings key in local storage. */
    var storage: Stored

    /** The settings the component persists. */
    function Settings(): AppSettings
      reads this
    {
      AppSettings(channels, templates, watermarkSettings)
    }

    /** The first render: the dashboard, the defaults, nothing produced. */
    constructor (storage: Stored)
      ensures currentView == Dashboard && !isSidebarOpen
      ensures channels == DefaultChannels && templates == DefaultTemplates && watermarkSettings == DefaultWatermark
      ensures projects == [] && musicLibrary == [] && selectedTemplate.None?
      ensures introOutroSettings == IntroOutroSettings(EmptySlot, EmptySlot)
      ensures this.storage == storage
    {
      currentView := Dashboard;
      isSidebarOpen := false;
      channels := DefaultChannels;
      templates := DefaultTemplates;
      watermarkSettings := DefaultWatermark;
      projects := [];
      introOutroSettings := IntroOutroSettings(EmptySlot, EmptySlot);
      musicLibrary := [];
      selectedTemplate := None;
      this.storage := storage;
    }

    /** The load effect: the three settings come from storage when present;
      nothing else changes. */
    method LoadSettings()
      modifies this
      ensures Settings() == Restored(old(Settings()), storage)
      ensures storage == old(storage) && currentView == old(currentView) && isSidebarOpen == old(isSidebarOpen)
      ensures projects == old(projects) && introOutroSettings == old(introOutroSettings)
      ensures musicLibrary == old(musicLibrary) && selectedTemplate == old(selectedTemplate)
    {
      match storage
      case Parsed(c, t, w) =>
        if c.Some? {
          channels := c.value;
        }
        if t.Some? {
          templates := t.value;
        }
        if w.Some? {
          watermarkSettings := w.value;
        }
      case _ =>
    }

    /** The save effect: storage holds the three settings and nothing of the
      session (projects, intro and outro, music). */
    method SaveSettings()
      modifies this
      ensures storage == Saved(Settings())
      ensures Settings() == old(Settings()) && currentView == old(currentView) && isSidebarOpen == old(isSidebarOpen)
      ensures projects == old(projects) && introOutroSettings == old(introOutroSettings)
      ensures musicLibrary == old(musicLibrary) && selectedTemplate == old(selectedTemplate)
    {
      storage := Parsed(Some(channels), Some(templates), Some(watermarkSettings));
    }

    /** `handleProjectCreated`: the new project goes first, the earlier ones
      keep their order. */
    method HandleProjectCreated(newProject: GeneratedAsset)
      modifies this
      ensures projects == [newProject] + old(projects)
      ensures Settings() == old(Settings()) && storage == old(storage) && currentView == old(currentView)
      ensures selectedTemplate == old(selectedTemplate) && isSidebarOpen == old(isSidebarOpen)
      ensures introOutroSettings == old(introOutroSettings) && musicLibrary == old(musicLibrary)
    {
      projects := [newProject] + projects;
    }

    /** `handleUpdateChannels`. */
    method HandleUpdateChannels(updatedChannels: seq<Channel>)
      modifies this
      ensures channels == updatedChannels
      ensures templates == old(templates) && watermarkSettings == old(watermarkSettings)
      ensures projects == old(projects) && storage == old(storage) && currentView == old(currentView)
      ensures isSidebarOpen == old(isSidebarOpen) && selectedTemplate == old(selectedTemplate)
      ensures introOutroSettings == old(introOutroSettings) && musicLibrary == old(musicLibrary)
    {
      channels := updatedChannels;
    }

    /** `handleUseTemplate`: the template is selected and the studio shown. */
    method HandleUseTemplate(template: Template)
      modifies this
      ensures selectedTemplate == Some(template) && currentView == Studio
      ensures Settings() == old(Settings()) && projects == old(projects) && isSidebarOpen == old(isSidebarOpen)
      ensures storage == old(storage)
      ensures introOutroSettings == old(introOutroSettings) && musicLibrary == old(musicLibrary)
    {
      selectedTemplate := Some(template);
      currentView := Studio;
    }

    /** `handleSaveTemplate`: the template goes last. */
    method HandleSaveTemplate(newTemplate: Template)
      modifies this
      ensures templates == old(templates) + [newTemplate]
      ensures channels == old(channels) && watermarkSettings == old(watermarkSettings)
      ensures projects == old(projects) && selectedTemplate == old(selectedTemplate) && currentView == old(currentView)
      ensures isSidebarOpen == old(isSidebarOpen) && storage == old(storage)
      ensures introOutroSettings == old(introOutroSettings) && musicLibrary == old(musicLibrary)
    {
      templates := templates + [newTemplate];
    }

    /** `handleDeleteTemplate`: every template with the id goes, the others
      keep their order. */
    method HandleDeleteTemplate(id: string)
      modifies this
      ensures templates == Filter(old(templates), (t: Template) => t.id != id)
      ensures forall t :: t in templates <==> t in old(templates) && t.id != id
      ensures channels == old(channels) && watermarkSettings == old(watermarkSettings)
      ensures projects == old(projects) && selectedTemplate == old(selectedTemplate) && currentView == old(currentView)
      ensures isSidebarOpen == old(isSidebarOpen) && storage == old(storage)
      ensures introOutroSettings == old(introOutroSettings) && musicLibrary == old(musicLibrary)
    {
      templates := Filter(templates, (t: Template) => t.id != id);
    }

    method ToggleSidebar()
      modifies this
      ensures isSidebarOpen == !old(isSidebarOpen)
      ensures Settings() == old(Settings()) && currentView == old(currentView) && selectedTemplate == old(selectedTemplate)
      ensures projects == old(projects) && storage == old(storage)
      ensures introOutroSettings == old(introOutroSettings) && musicLibrary == old(musicLibrary)
    {
      isSidebarOpen := !isSidebarOpen;
    }

    /** `handleNavClick`: the view is shown and the sidebar closed; going to
      the studio from the menu drops the selected template, any other view
      keeps it. */
    method HandleNavClick(view: View)
      modifies this
      ensures currentView == view && !isSidebarOpen
      ensures selectedTemplate == (if view == Studio then None else old(selectedTemplate))
      ensures Settings() == old(Settings()) && projects == old(projects) && storage == old(storage)
      ensures introOutroSettings == old(introOutroSettings) && musicLibrary == old(musicLibrary)
    {
      if view == Studio {
        selectedTemplate := None;
      }
      currentView := view;
      isSidebarOpen := false;
    }
  }

  // ---------------------------------------------------------------------
  // The list updates, as values

  /** Deleting a template keeps exactly the templates with other ids, in
      their order, and deleting again changes nothing. */
  lemma DeleteTemplateTwice(templates: seq<Template>, id: string)
    ensures var once := Filter(templates, (t: Template) => t.id != id);
      && IsSubsequence(once, templates)
      && Filter(once, (t: Template) => t.id != id) == once
  {
    var p := (t: Template) => t.id != id;
    var once := Filter(templates, p);
    assert forall i :: 0 <= i < |once| ==> once[i] in once;
    FilterAll(once, p);
  }

  /** A saved template can be deleted by its id, and deleting it leaves the
      others as they were when its id was new. */
  lemma DeleteUndoesSave(templates: seq<Template>, t: Template)
    requires forall u :: u in templates ==> u.id != t.id
    ensures Filter(templates + [t], (u: Template) => u.id != t.id) == templates
  {
    var p := (u: Template) => u.id != t.id;
    FilterAppend(templates, [t], p);
    FilterAll(templates, p);
    assert Filter([t], p) == [];
  }
}
