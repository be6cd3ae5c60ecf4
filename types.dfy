/** The shared record types of the application (the user, chat messages,
  * chat configurations and the top-level views). */
module Types {
  import opened Wrappers

  /** The screens the application switches between. */
  datatype AppView =
    | Landing | Dashboard | Chat | Auth | PrayerTimes | Zakat
    | LifestyleHub | LearningHub | LectureSummarizer | QuranReader
    | HadithReader | DuaCollection

  datatype User = User(id: string, name: string, email: string)

  datatype Role = UserRole | ModelRole

  /** A chat message; the timestamp and the loading flag carry no logic and
    * are not modelled. */
  datatype Message = Message(id: string, role: Role, text: string)

  /** The configuration a chat is launched with; the icon is not modelled.
    * `None` stands for a property the configuration leaves out. */
  datatype ChatConfig = ChatConfig(
    id: string,
    title: string,
    systemInstruction: string,
    initialMessage: string,
    model: Option<string>,
    useGoogleSearch: Option<bool>,
    thinkingBudget: Option<int>)
}
