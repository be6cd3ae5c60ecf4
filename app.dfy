/** The application shell: which screen is shown, who is signed in, and the
  * chat configuration the chat screen was opened with, together with the
  * handlers that move between screens and launch tools. */
module App {
  import opened Wrappers
  import opened Types
  import GeminiService
  import ChatInterface
  import Text

  /** What opening a tool does: switch to a screen, or open the chat screen
    * with a configuration. */
  datatype Launch = OpenView(view: AppView) | OpenChat(config: ChatConfig)

  /** The screen a launch ends on. */
  function TargetOf(l: Launch): AppView
  {
    match l
    case OpenView(v) => v
    case OpenChat(_) => Chat
  }

  // ---------------------------------------------------------------------
  // The chat configurations the shell launches

  const FLASH := GeminiService.DEFAULT_MODEL
  const PRO := GeminiService.THINKING_MODEL

  /** The Q&A chat's welcome after its placeholder. */
  const QA_WELCOME_TAIL := ". I am equipped with advanced reasoning to help you navigate complex spiritual questions and ethical dilemmas. What is on your mind?"

  const QA_CHAT := ChatConfig(
    "default", "DeenGPT Pro",
    "You are DeenGPT, a knowledgeable Islamic AI. Use your thinking capabilities to answer complex questions about Islam, Quran, and Sunnah with depth, nuance, and evidence. You are also an Ethics Coach: for interpersonal dilemmas, suggest 3 responses based on Islamic Adab (manners). For Fiqh questions, outline the differences of opinion (Ikhtilaf) and their methodologies.",
    "Salaam " + ChatInterface.NAME_PLACEHOLDER + QA_WELCOME_TAIL,
    Some(PRO), None, Some(32768))

  const STUDY_ROOM_CHAT := ChatConfig(
    "study-room", "Virtual Study Partner",
    "You are a virtual study partner for Islamic studies. You help users learn by quizzing them, explaining concepts simply, and keeping them motivated. You can act as a tutor for Tajweed theory, Fiqh basics, or Seerah.",
    "Salaam! I'm your study partner. What topic are we mastering today? I can help with revision, quizzes, or explaining difficult concepts.",
    Some(PRO), None, Some(16000))

  const HALAL_FOOD_CHAT := ChatConfig(
    "halal-food", "Halal Food Finder",
    "You are a helpful assistant for finding Halal food. Use Google Search to find top-rated halal restaurants, markets, or butchers near the user's location or specified area. Provide ratings, addresses, and cuisine types.",
    "I can help you find Halal food nearby. Where are you located and what are you craving?",
    Some(FLASH), Some(true), None)

  const MODEST_FASHION_CHAT := ChatConfig(
    "modest-fashion", "Modest Fashion Stylist",
    "You are a Modest Fashion expert. Help users find clothing brands, style outfits, and discover trends that adhere to Islamic modesty principles. Use Google Search to find current collections and links.",
    "Looking for a new look? I can help you find modest fashion brands and styles. What's the occasion?",
    Some(FLASH), Some(true), None)

  const CHARITY_CHAT := ChatConfig(
    "charity", "Charity Platform",
    "You are a guide for Islamic Charity (Sadaqah/Zakat). Help users find trusted organizations for specific causes (e.g., orphans, water, education) using Google Search. Verify they are reputable.",
    "Your charity can change lives. Are there specific causes you want to support today?",
    Some(FLASH), Some(true), None)

  const HISTORY_CHAT := ChatConfig(
    "history", "Islamic Historian",
    "You are an expert Islamic Historian. Provide detailed narratives from the Seerah, Caliphates, and Islamic Golden Age. Be accurate with dates and sources.",
    "I can take you back in time. Which era or event in Islamic history would you like to explore?",
    Some(PRO), None, Some(16000))

  const HADITH_CHAT := ChatConfig(
    "hadith", "Hadith Explorer",
    "You are a Hadith expert. Help users find hadiths from authentic collections (Bukhari, Muslim, etc.) based on topics or keywords. Provide the Arabic text, translation, and reference number.",
    "Search the words of the Prophet (\U{FDFA}). What topic or hadith are you looking for?",
    Some(FLASH), Some(true), None)

  const LINGUISTICS_CHAT := ChatConfig(
    "linguistics", "Linguistic Explorer",
    "You are an expert in Classical Arabic and Quranic Etymology (Ishtiqaq). When a user provides a word or verse, explain the triliteral root, its derivatives, and its usage in the Quran to reveal deeper meanings.",
    "Enter an Arabic word or Quranic verse to explore its deep linguistic roots and meanings.",
    Some(PRO), None, Some(16000))

  /** The model a configuration names is the one the Gemini service picks
    * for it: thinking chats name the thinking model and searching chats the
    * default one. */
  predicate ModelAsSelected(c: ChatConfig)
  {
    && (GeminiService.Thinks(Some(c)) ==> c.model == Some(PRO))
    && (!GeminiService.Thinks(Some(c)) && GeminiService.Searches(Some(c)) ==> c.model == Some(FLASH))
  }

  // ---------------------------------------------------------------------
  // Tool launches

  /** The tools the Lifestyle Hub offers, in its order. */
  const LIFESTYLE_TOOLS := ["halal-food", "zakat", "modest-fashion", "charity"]

  /** The tools the Learning Hub hands to the shell. */
  const LEARNING_TOOLS := ["hadith-reader", "lecture-summarizer", "history-bot", "hadith-library-chat", "linguistic-explorer"]

  /** `handleLifestyleToolLaunch` as a table: every offered tool is handled,
    * the calculator is a screen of its own, and each other tool is a
    * searching chat whose configuration carries the tool's id. */
  function LifestyleLaunch(toolId: string): (r: Option<Launch>)
    ensures r.Some? <==> toolId in LIFESTYLE_TOOLS
    ensures r.Some? && r.value.OpenView? <==> toolId == "zakat"
    ensures r.Some? && r.value.OpenView? ==> r.value.view == Zakat
    ensures r.Some? && r.value.OpenChat? ==>
      && r.value.config.id == toolId
      && GeminiService.Searches(Some(r.value.config))
      && !GeminiService.Thinks(Some(r.value.config))
      && ModelAsSelected(r.value.config)
  {
    if toolId == "zakat" then Some(OpenView(Zakat))
    else if toolId == "halal-food" then Some(OpenChat(HALAL_FOOD_CHAT))
    else if toolId == "modest-fashion" then Some(OpenChat(MODEST_FASHION_CHAT))
    else if toolId == "charity" then Some(OpenChat(CHARITY_CHAT))
    else None
  }

  /** `handleLearningToolLaunch` as a table: the two readers are screens, the
    * three chats get their own ids, and anything else is ignored. */
  function LearningLaunch(toolId: string): (r: Option<Launch>)
    ensures r.Some? <==> toolId in LEARNING_TOOLS
    ensures toolId == "hadith-reader" ==> r == Some(OpenView(HadithReader))
    ensures toolId == "lecture-summarizer" ==> r == Some(OpenView(LectureSummarizer))
    ensures toolId == "history-bot" ==> r.Some? && r.value.OpenChat? && r.value.config.id == "history"
    ensures toolId == "hadith-library-chat" ==> r.Some? && r.value.OpenChat? && r.value.config.id == "hadith"
    ensures toolId == "linguistic-explorer" ==> r.Some? && r.value.OpenChat? && r.value.config.id == "linguistics"
    ensures r.Some? && r.value.OpenChat? ==> ModelAsSelected(r.value.config)
  {
    if toolId == "hadith-reader" then Some(OpenView(HadithReader))
    else if toolId == "lecture-summarizer" then Some(OpenView(LectureSummarizer))
    else if toolId == "history-bot" then Some(OpenChat(HISTORY_CHAT))
    else if toolId == "hadith-library-chat" then Some(OpenChat(HADITH_CHAT))
    else if toolId == "linguistic-explorer" then Some(OpenChat(LINGUISTICS_CHAT))
    else None
  }

  /** A dashboard card and what clicking it does. */
  datatype Feature = Feature(id: string, action: Launch)

  /** The dashboard cards, in their order. */
  const FEATURES: seq<Feature> := [
    Feature("qa", OpenChat(QA_CHAT)),
    Feature("daily", OpenView(PrayerTimes)),
    Feature("learning", OpenView(LearningHub)),
    Feature("quran-main", OpenView(QuranReader)),
    Feature("dua-main", OpenView(DuaCollection)),
    Feature("lifestyle", OpenView(LifestyleHub)),
    Feature("community", OpenChat(STUDY_ROOM_CHAT))
  ]

  // ---------------------------------------------------------------------
  // Rendering and the way back

  /** The screens that are drawn whether or not anyone is signed in. */
  predicate Ungated(v: AppView)
  {
    v == Landing || v == Dashboard || v == Auth
  }

  /** The screen drawn for a state: every tool screen needs a signed-in
    * user, so a signed-out user on one sees an empty main area. */
  function Screen(view: AppView, user: Option<User>): (r: Option<AppView>)
    ensures r.Some? ==> r.value == view
    ensures user.Some? ==> r == Some(view)
    ensures user.None? && r.Some? ==> r.value in {Landing, Dashboard, Auth}
    ensures user.None? && view in {Landing, Dashboard, Auth} ==> r == Some(view)
  {
    if Ungated(view) || user.Some? then Some(view) else None
  }

  /** Where a screen's back (or cancel) button leads; the landing page and
    * the dashboard have none. */
  function BackTarget(v: AppView): (r: Option<AppView>)
    ensures r.None? <==> v == Landing || v == Dashboard
    ensures r.Some? ==> r.value in {Landing, Dashboard, LearningHub, LifestyleHub}
    ensures r == Some(Landing) <==> v == Auth
  {
    match v
    case Landing => None
    case Dashboard => None
    case Auth => Some(Landing)
    case LectureSummarizer => Some(LearningHub)
    case HadithReader => Some(LearningHub)
    case Zakat => Some(LifestyleHub)
    case _ => Some(Dashboard)
  }

  /** The screen the Lifestyle Hub opens leads back to the Lifestyle Hub. */
  lemma BackReturnsToLifestyleHub(toolId: string)
    requires LifestyleLaunch(toolId).Some? && LifestyleLaunch(toolId).value.OpenView?
    ensures BackTarget(LifestyleLaunch(toolId).value.view) == Some(LifestyleHub)
  {
  }

  /** The screens the Learning Hub opens lead back to the Learning Hub. */
  lemma BackReturnsToLearningHub(toolId: string)
    requires LearningLaunch(toolId).Some? && LearningLaunch(toolId).value.OpenView?
    ensures BackTarget(LearningLaunch(toolId).value.view) == Some(LearningHub)
  {
  }

  /** Every dashboard card leads to a screen whose back button returns to
    * the dashboard; so does every chat, whichever hub launched it. */
  lemma FeatureBackToDashboard(i: nat)
    requires i < |FEATURES|
    ensures BackTarget(TargetOf(FEATURES[i].action)) == Some(Dashboard)
    ensures BackTarget(Chat) == Some(Dashboard)
  {
    var t := TargetOf(FEATURES[i].action);
    assert t in {Chat, PrayerTimes, LearningHub, QuranReader, DuaCollection, LifestyleHub} by {
      assert FEATURES[i] in FEATURES;
    }
  }

  /** The dashboard's chats think, and name the model the Gemini service
    * uses for them. */
  lemma FeatureChatsModelAsSelected(i: nat)
    requires i < |FEATURES| && FEATURES[i].action.OpenChat?
    ensures ModelAsSelected(FEATURES[i].action.config)
    ensures GeminiService.Thinks(Some(FEATURES[i].action.config))
  {
    assert i == 0 || i == 6;
  }

  /** The placeholder cannot start inside a lead free of `$`. */
  lemma NoDollarNoPlaceholder(m: string, lead: string, j: nat)
    requires j < |lead| <= |m| && m[..|lead|] == lead && '$' !in lead
    ensures !Text.OccursAt(m, ChatInterface.NAME_PLACEHOLDER, j)
  {
    assert m[j] == lead[j] && lead[j] != '$';
    assert ChatInterface.NAME_PLACEHOLDER[0] == '$';
  }

  /** The Q&A chat opens by greeting the user by name. */
  lemma QaWelcomeGreetsUser(name: string)
    ensures ChatInterface.WelcomeText(Some(QA_CHAT), name) == "Salaam " + name + QA_WELCOME_TAIL
  {
    var p := ChatInterface.NAME_PLACEHOLDER;
    var lead := "Salaam ";
    var m := QA_CHAT.initialMessage;
    assert m == lead + p + QA_WELCOME_TAIL;
    assert Text.OccursAt(m, p, |lead|) by {
      assert m[|lead|..|lead| + |p|] == p;
    }
    ChatInterface.OccursAtContains(m, p, |lead|);
    forall j: nat | j < |lead|
      ensures !Text.OccursAt(m, p, j)
    {
      NoDollarNoPlaceholder(m, lead, j);
    }
    var k := Text.IndexOf(m, p).value;
    assert k == |lead|;
    var r := Text.ReplaceFirst(m, p, name);
    assert r == m[..k] + name + m[k + |p|..];
    assert m[..k] == lead && m[k + |p|..] == QA_WELCOME_TAIL;
  }

  // ---------------------------------------------------------------------
  // The shell's state

  class AppState {
    var view: AppView
    var user: Option<User>
    var chatConfig: Option<ChatConfig>

    /** Someone is signed in exactly when the shell is past the landing page
      * and the sign-in form. */
    predicate Valid()
      reads this
    {
      user.None? <==> view == Landing || view == Auth
    }

    constructor ()
      ensures view == Landing && user == None && chatConfig == None
      ensures Valid()
    {
      view := Landing;
      user := None;
      chatConfig := None;
    }

    /** What a launch leaves behind: the target screen, the configuration for
      * a chat, and the user untouched. */
    twostate predicate Launched(l: Launch)
      reads this
    {
      && view == TargetOf(l)
      && chatConfig == (if l.OpenChat? then Some(l.config) else old(chatConfig))
      && user == old(user)
    }

    /** `handleLogin`. */
    method Login(newUser: User)
      modifies this
      ensures user == Some(newUser) && view == Dashboard && chatConfig == old(chatConfig)
      ensures Valid()
    {
      user := Some(newUser);
      view := Dashboard;
    }

    /** `handleSignOut`. */
    method SignOut()
      modifies this
      ensures user == None && view == Landing && chatConfig == old(chatConfig)
      ensures Valid()
    {
      user := None;
      view := Landing;
    }

    /** `launchChat`. */
    method LaunchChat(config: ChatConfig)
      modifies this`chatConfig, this`view
      ensures Launched(OpenChat(config))
    {
      chatConfig := Some(config);
      view := Chat;
    }

    /** `handleLifestyleToolLaunch`; an unknown tool changes nothing. */
    method LifestyleToolLaunch(toolId: string)
      modifies this`chatConfig, this`view
      ensures LifestyleLaunch(toolId).None? ==> view == old(view) && chatConfig == old(chatConfig)
      ensures LifestyleLaunch(toolId).Some? ==> Launched(LifestyleLaunch(toolId).value)
      ensures old(Valid()) && old(view) == LifestyleHub ==> Valid()
    {
      if toolId == "zakat" {
        view := Zakat;
      } else if toolId == "halal-food" {
        LaunchChat(HALAL_FOOD_CHAT);
      } else if toolId == "modest-fashion" {
        LaunchChat(MODEST_FASHION_CHAT);
      } else if toolId == "charity" {
        LaunchChat(CHARITY_CHAT);
      }
    }

    /** `handleLearningToolLaunch`; an unknown tool changes nothing. */
    method LearningToolLaunch(toolId: string)
      modifies this`chatConfig, this`view
      ensures LearningLaunch(toolId).None? ==> view == old(view) && chatConfig == old(chatConfig)
      ensures LearningLaunch(toolId).Some? ==> Launched(LearningLaunch(toolId).value)
      ensures old(Valid()) && old(view) == LearningHub ==> Valid()
    {
      if toolId == "hadith-reader" {
        view := HadithReader;
      } else if toolId == "lecture-summarizer" {
        view := LectureSummarizer;
      } else if toolId == "history-bot" {
        LaunchChat(HISTORY_CHAT);
      } else if toolId == "hadith-library-chat" {
        LaunchChat(HADITH_CHAT);
      } else if toolId == "linguistic-explorer" {
        LaunchChat(LINGUISTICS_CHAT);
      }
    }

    /** A click on the i-th dashboard card. */
    method FeatureClick(i: nat)
      requires i < |FEATURES|
      modifies this`chatConfig, this`view
      ensures Launched(FEATURES[i].action)
      ensures old(Valid()) && old(view) == Dashboard ==> Valid()
    {
      match FEATURES[i].action {
        case OpenView(v) => view := v;
        case OpenChat(config) => LaunchChat(config);
      }
    }

    /** On the landing page every card, the hero button and the navigation
      * bar's button open the sign-in form instead. */
    method OpenAuth()
      modifies this`view
      ensures view == Auth
      ensures old(Valid()) && old(view) == Landing ==> Valid()
    {
      view := Auth;
    }

    /** The logo: the dashboard for a signed-in user, the landing page
      * otherwise. */
    method LogoClick()
      modifies this`view
      ensures view == (if user.Some? then Dashboard else Landing)
      ensures Valid()
    {
      if user.Some? {
        view := Dashboard;
      } else {
        view := Landing;
      }
    }

    /** The back button of screen `from` (the cancel button of the sign-in
      * form). */
    method Back(from: AppView)
      requires BackTarget(from).Some?
      modifies this`view
      ensures view == BackTarget(from).value
      ensures old(Valid()) && old(view) == from ==> Valid()
    {
      view := BackTarget(from).value;
    }
  }
}
