/**
 * The session state of the single-page client (frontend/src/App.js): the
 * `App` component's state hooks become the fields of a class and its
 * handlers become methods. Each axios request is replaced by its outcome,
 * passed in by the caller (`None` when the request fails), and
 * `Date.now()` / `new Date().toISOString()` by supplied values.
 */
module Client {
  import opened Records
  import opened Text

  // ---------------------------------------------------------------------
  // The personality form

  /** The three tag lists of the form. */
  datatype ListField = Interests | PersonalityTraits | FavoriteTopics

  /** The free-text fields of the form. */
  datatype TextField = Name | Username | CommunicationStyle | SpeakingQuirks | Background

  /** `personalityForm`: what the user has typed so far on the create screen. */
  datatype PersonalityForm = PersonalityForm(
    name: string,
    username: string,
    communicationStyle: string,
    interests: seq<string>,
    personalityTraits: seq<string>,
    favoriteTopics: seq<string>,
    speakingQuirks: string,
    background: string)
  {
    /** `personalityForm[type]` for a list field. */
    function List(f: ListField): seq<string> {
      match f
      case Interests => interests
      case PersonalityTraits => personalityTraits
      case FavoriteTopics => favoriteTopics
    }

    /** `personalityForm[field]` for a text field. */
    function Field(f: TextField): string {
      match f
      case Name => name
      case Username => username
      case CommunicationStyle => communicationStyle
      case SpeakingQuirks => speakingQuirks
      case Background => background
    }

    /** `{...prev, [type]: items}`: one list replaced, everything else kept. */
    function WithList(f: ListField, items: seq<string>): (r: PersonalityForm)
      ensures r.List(f) == items
      ensures forall g :: g != f ==> r.List(g) == List(g)
      ensures forall t :: r.Field(t) == Field(t)
    {
      match f
      case Interests => this.(interests := items)
      case PersonalityTraits => this.(personalityTraits := items)
      case FavoriteTopics => this.(favoriteTopics := items)
    }

    /** `{...prev, [field]: value}`: one text field replaced, everything else kept. */
    function WithText(f: TextField, value: string): (r: PersonalityForm)
      ensures r.Field(f) == value
      ensures forall t :: t != f ==> r.Field(t) == Field(t)
      ensures forall g :: r.List(g) == List(g)
    {
      match f
      case Name => this.(name := value)
      case Username => this.(username := value)
      case CommunicationStyle => this.(communicationStyle := value)
      case SpeakingQuirks => this.(speakingQuirks := value)
      case Background => this.(background := value)
    }
  }

  /** The form as the component first renders it, and as a successful create leaves it. */
  const EmptyForm := PersonalityForm("", "", "", [], [], [], "", "")

  /** An entry `handleAddItem` can have put in a list: non-empty, with no white space at either end. */
  predicate IsTag(s: string) {
    s != [] && !IsSpace(s[0]) && !IsSpace(s[|s| - 1])
  }

  /** Every entry of the list is a tag. */
  predicate AllTags(items: seq<string>) {
    forall k :: 0 <= k < |items| ==> IsTag(items[k])
  }

  /** A non-blank value trims to a tag, and a tag trims to itself. */
  lemma TrimGivesTag(value: string)
    ensures Trim(value) != [] ==> IsTag(Trim(value))
    ensures IsTag(value) ==> Trim(value) == value
  {
    if IsTag(value) {
      TrimOfTrimmed(value);
    }
  }

  /** `items.filter((_, i) => i !== index)`: every entry except the one at `index`. */
  function Without(items: seq<string>, index: int): (r: seq<string>)
    ensures 0 <= index < |items| ==> r == items[..index] + items[index + 1..]
    ensures !(0 <= index < |items|) ==> r == items
  {
    if items == [] then []
    else (if index == 0 then [] else [items[0]]) + Without(items[1..], index - 1)
  }

  /** Appending a tag keeps every entry a tag. */
  lemma AppendKeepsTags(items: seq<string>, tag: string)
    requires IsTag(tag)
    ensures AllTags(items) ==> AllTags(items + [tag])
  {
  }

  /** Removing an entry keeps every remaining one a tag. */
  lemma WithoutKeepsTags(items: seq<string>, index: int)
    requires AllTags(items)
    ensures AllTags(Without(items, index))
  {
    var r := Without(items, index);
    if 0 <= index < |items| {
      forall k | 0 <= k < |r|
        ensures IsTag(r[k])
      {
        if k < index {
          assert r[k] == items[k];
        } else {
          assert r[k] == items[k + 1];
        }
      }
    }
  }

  /** Removing the entry just added gives the list back: remove undoes add. */
  lemma RemoveUndoesAdd(items: seq<string>, item: string)
    ensures Without(items + [item], |items|) == items
  {
    assert (items + [item])[..|items|] == items;
  }

  /** Removing at an index in range shortens the list by exactly one. */
  lemma WithoutShortens(items: seq<string>, index: int)
    ensures |Without(items, index)| == if 0 <= index < |items| then |items| - 1 else |items|
  {
  }

  // ---------------------------------------------------------------------
  // Building the user record

  const DefaultStyle := "casual and friendly"
  const DefaultQuirks := "none"
  const DefaultBackground := "general background"

  /** JavaScript's `s || fallback` on a string: the empty string is falsy. */
  function OrElse(s: string, fallback: string): (r: string)
    ensures s != "" ==> r == s
    ensures s == "" ==> r == fallback
  {
    if s == "" then fallback else s
  }

  /**
   * The `userData` record `handleCreatePersonality` posts: `millis` is
   * `Date.now()` and `createdAt` is `new Date().toISOString()`.
   */
  function BuildUser(form: PersonalityForm, millis: nat, createdAt: string): (u: User)
    ensures u.userId == "user_" + Decimal(millis)
    ensures u.username == form.username && u.createdAt == createdAt
    ensures u.personality.name == form.name
    ensures form.communicationStyle != "" ==> u.personality.communicationStyle == form.communicationStyle
    ensures form.communicationStyle == "" ==> u.personality.communicationStyle == DefaultStyle
    ensures form.speakingQuirks != "" ==> u.personality.speakingQuirks == form.speakingQuirks
    ensures form.speakingQuirks == "" ==> u.personality.speakingQuirks == DefaultQuirks
    ensures form.background != "" ==> u.personality.background == form.background
    ensures form.background == "" ==> u.personality.background == DefaultBackground
    ensures u.personality.interests == form.interests
    ensures u.personality.personalityTraits == form.personalityTraits
    ensures u.personality.favoriteTopics == form.favoriteTopics
  {
    User(
      "user_" + Decimal(millis),
      form.username,
      Personality(
        form.name,
        OrElse(form.communicationStyle, DefaultStyle),
        form.interests,
        form.personalityTraits,
        form.favoriteTopics,
        OrElse(form.speakingQuirks, DefaultQuirks),
        OrElse(form.background, DefaultBackground)),
      createdAt)
  }

  /** The defaults leave no descriptive field of a built persona empty. */
  lemma BuiltPersonaIsDescribed(form: PersonalityForm, millis: nat, createdAt: string)
    ensures var p := BuildUser(form, millis, createdAt).personality;
      p.communicationStyle != "" && p.speakingQuirks != "" && p.background != ""
  {
  }

  /** Users built at different milliseconds get different ids. */
  lemma {:induction false} UserIdsDiffer(form1: PersonalityForm, form2: PersonalityForm, m: nat, n: nat,
                                         at1: string, at2: string)
    requires m != n
    ensures BuildUser(form1, m, at1).userId != BuildUser(form2, n, at2).userId
  {
    var prefix := "user_";
    if prefix + Decimal(m) == prefix + Decimal(n) {
      assert Decimal(m) == (prefix + Decimal(m))[|prefix|..];
      assert Decimal(n) == (prefix + Decimal(n))[|prefix|..];
      DecimalInjective(m, n);
    }
  }

  // ---------------------------------------------------------------------
  // Views

  /** The screens the component renders. */
  datatype Screen = HomeScreen | CreateScreen | ExploreScreen | ConversationsScreen

  /** The render dispatch: the screen shown for a `currentView`, or `None` when it shows nothing. */
  function Rendered(view: string): (s: Option<Screen>)
    ensures view == "home" <==> s == Some(HomeScreen)
    ensures view == "create" <==> s == Some(CreateScreen)
    ensures view == "explore" <==> s == Some(ExploreScreen)
    ensures view == "conversations" <==> s == Some(ConversationsScreen)
  {
    if view == "home" then Some(HomeScreen)
    else if view == "create" then Some(CreateScreen)
    else if view == "explore" then Some(ExploreScreen)
    else if view == "conversations" then Some(ConversationsScreen)
    else None
  }

  /** The view a successful create switches to. */
  const DashboardView := "dashboard"

  /** No screen is rendered for the view a successful create switches to. */
  lemma DashboardShowsNothing()
    ensures Rendered(DashboardView) == None
  {
    assert DashboardView[0] == 'd';
  }

  /**
   * The explore screen offers "Start Conversation" on a clone's card only
   * when a user is signed in and the clone is someone else.
   */
  predicate Offers(currentUser: Option<User>, target: User) {
    currentUser.Some? && currentUser.value.userId != target.userId
  }

  // ---------------------------------------------------------------------
  // The component

  const FillInAlert := "Please fill in name and username"
  const CreateFailedAlert := "Error creating personality. Please try again."
  const GeneratedAlert := "Conversation generated successfully!"
  const GenerateFailedAlert := "Error generating conversation. Please try again."
  const DefaultTopic := "general chat"

  /** The state of the `App` component. */
  class App {
    var currentView: string
    var users: seq<User>
    var conversations: seq<Listed>
    var currentUser: Option<User>
    var loading: bool
    var personalityForm: PersonalityForm
    var interestInput: string
    var traitInput: string
    var topicInput: string

    /** The pending input typed next to a list's "add" button. */
    function PendingInput(f: ListField): string
      reads this
    {
      match f
      case Interests => interestInput
      case PersonalityTraits => traitInput
      case FavoriteTopics => topicInput
    }

    /** Every entry of the form's lists was added through `handleAddItem`, so it is a tag. */
    ghost predicate Valid()
      reads this
    {
      forall f :: AllTags(personalityForm.List(f))
    }

    /** The initial state of the hooks. */
    constructor ()
      ensures currentView == "home" && users == [] && conversations == []
      ensures currentUser == None && !loading
      ensures personalityForm == EmptyForm
      ensures interestInput == "" && traitInput == "" && topicInput == ""
      ensures Valid()
    {
      currentView, users, conversations := "home", [], [];
      currentUser, loading := None, false;
      personalityForm := EmptyForm;
      interestInput, traitInput, topicInput := "", "", "";
    }

    /** `fetchUsers`: a successful request replaces the cached users, a failed one keeps them. */
    method FetchUsers(response: Option<seq<User>>)
      modifies this`users
      ensures response.Some? ==> users == response.value
      ensures response.None? ==> users == old(users)
    {
      if response.Some? {
        users := response.value;
      }
    }

    /** `fetchConversations`: a successful request replaces the cached conversations, a failed one keeps them. */
    method FetchConversations(response: Option<seq<Listed>>)
      modifies this`conversations
      ensures response.Some? ==> conversations == response.value
      ensures response.None? ==> conversations == old(conversations)
    {
      if response.Some? {
        conversations := response.value;
      }
    }

    /** The effect run once on mount: fetch both lists. */
    method Mount(usersResponse: Option<seq<User>>, conversationsResponse: Option<seq<Listed>>)
      modifies this`users, this`conversations
      ensures usersResponse.Some? ==> users == usersResponse.value
      ensures usersResponse.None? ==> users == old(users)
      ensures conversationsResponse.Some? ==> conversations == conversationsResponse.value
      ensures conversationsResponse.None? ==> conversations == old(conversations)
    {
      FetchUsers(usersResponse);
      FetchConversations(conversationsResponse);
    }

    /** `setCurrentView`, as the navigation buttons call it. */
    method Navigate(view: string)
      modifies this`currentView
      ensures currentView == view
    {
      currentView := view;
    }

    /** The `onChange` of a text field of the form. */
    method EditText(f: TextField, value: string)
      modifies this`personalityForm
      ensures personalityForm == old(personalityForm).WithText(f, value)
      ensures old(Valid()) ==> Valid()
    {
      personalityForm := personalityForm.WithText(f, value);
    }

    /** The `onChange` of a list's pending input. */
    method EditPendingInput(f: ListField, value: string)
      modifies this`interestInput, this`traitInput, this`topicInput
      ensures PendingInput(f) == value
      ensures forall g :: g != f ==> PendingInput(g) == old(PendingInput(g))
    {
      match f
      case Interests => interestInput := value;
      case PersonalityTraits => traitInput := value;
      case FavoriteTopics => topicInput := value;
    }

    /**
     * `handleAddItem`: a value that trims to nothing changes nothing, not
     * even the pending input; otherwise its trimmed text is appended to the
     * list and that list's pending input, and only that one, is cleared.
     */
    method HandleAddItem(value: string, f: ListField)
      modifies this`personalityForm, this`interestInput, this`traitInput, this`topicInput
      ensures IsBlank(value) ==> unchanged(this)
      ensures !IsBlank(value) ==>
        && personalityForm == old(personalityForm).WithList(f, old(personalityForm).List(f) + [Trim(value)])
        && PendingInput(f) == ""
        && forall g :: g != f ==> PendingInput(g) == old(PendingInput(g))
      ensures old(Valid()) ==> Valid()
    {
      var trimmed := Trim(value);
      if trimmed == "" {
        return;
      }
      TrimGivesTag(value);
      AddTag(f, trimmed);
    }

    /** The two state updates of `handleAddItem` once the value is known not to be blank. */
    method AddTag(f: ListField, tag: string)
      requires IsTag(tag)
      modifies this`personalityForm, this`interestInput, this`traitInput, this`topicInput
      ensures personalityForm == old(personalityForm).WithList(f, old(personalityForm).List(f) + [tag])
      ensures PendingInput(f) == ""
      ensures forall g :: g != f ==> PendingInput(g) == old(PendingInput(g))
      ensures old(Valid()) ==> Valid()
    {
      AppendKeepsTags(personalityForm.List(f), tag);
      personalityForm := personalityForm.WithList(f, personalityForm.List(f) + [tag]);
      EditPendingInput(f, "");
    }

    /** `handleRemoveItem`: the list loses the entry at `index`, if there is one, and keeps its order. */
    method HandleRemoveItem(index: int, f: ListField)
      modifies this`personalityForm
      ensures personalityForm == old(personalityForm).WithList(f, Without(old(personalityForm).List(f), index))
      ensures old(Valid()) ==> Valid()
    {
      if Valid() {
        WithoutKeepsTags(personalityForm.List(f), index);
      }
      personalityForm := personalityForm.WithList(f, Without(personalityForm.List(f), index));
      if !(0 <= index < |old(personalityForm).List(f)|) {
        assert personalityForm == old(personalityForm);
      }
    }

    /**
     * `handleCreatePersonality`: without a name or a username only the
     * alert shows and no field changes. Otherwise the record is posted
     * (`posted` is whether the request succeeds); on success it becomes the
     * current user, the users are fetched again (`refreshed` is that
     * request's outcome), the view switches to "dashboard" and the form is
     * cleared (the pending inputs are not); on failure only the alert
     * shows. Either way `loading` ends false. The result is the alert text.
     */
    method HandleCreatePersonality(millis: nat, createdAt: string, posted: bool, refreshed: Option<seq<User>>)
      returns (alert: Option<string>)
      modifies this
      ensures old(personalityForm).name == "" || old(personalityForm).username == "" ==>
        unchanged(this) && alert == Some(FillInAlert)
      ensures old(personalityForm).name != "" && old(personalityForm).username != "" ==>
        && !loading
        && conversations == old(conversations)
        && interestInput == old(interestInput) && traitInput == old(traitInput) && topicInput == old(topicInput)
        && (posted ==>
              && currentUser == Some(BuildUser(old(personalityForm), millis, createdAt))
              && users == (if refreshed.Some? then refreshed.value else old(users))
              && currentView == DashboardView
              && personalityForm == EmptyForm
              && alert == None)
        && (!posted ==>
              && currentUser == old(currentUser) && users == old(users)
              && currentView == old(currentView) && personalityForm == old(personalityForm)
              && alert == Some(CreateFailedAlert))
      ensures old(Valid()) ==> Valid()
    {
      if personalityForm.name == "" || personalityForm.username == "" {
        return Some(FillInAlert);
      }
      loading := true;
      var userData := BuildUser(personalityForm, millis, createdAt);
      if posted {
        currentUser := Some(userData);
        FetchUsers(refreshed);
        currentView := DashboardView;
        personalityForm := EmptyForm;
        alert := None;
      } else {
        alert := Some(CreateFailedAlert);
      }
      loading := false;
    }

    /**
     * `handleGenerateConversation`: posts the request (`topic` is `None`
     * when the argument is left out, and then defaults to "general chat");
     * on success the conversations are fetched again (`refreshed` is that
     * request's outcome). Either way `loading` ends false. Returns the
     * request body and the alert text.
     */
    method HandleGenerateConversation(user1Id: string, user2Id: string, topic: Option<string>,
                                      posted: bool, refreshed: Option<seq<Listed>>)
      returns (request: ConversationRequestBody, alert: string)
      modifies this`loading, this`conversations
      ensures request.user1Id == user1Id && request.user2Id == user2Id
      ensures topic.None? ==> request.topic == DefaultTopic
      ensures topic.Some? ==> request.topic == topic.value
      ensures !loading
      ensures posted ==>
        && alert == GeneratedAlert
        && conversations == (if refreshed.Some? then refreshed.value else old(conversations))
      ensures !posted ==> alert == GenerateFailedAlert && conversations == old(conversations)
    {
      loading := true;
      var chosen := if topic.Some? then topic.value else DefaultTopic;
      request := ConversationRequestBody(user1Id, user2Id, chosen);
      if posted {
        FetchConversations(refreshed);
        alert := GeneratedAlert;
      } else {
        alert := GenerateFailedAlert;
      }
      loading := false;
    }

    /**
     * The "Start Conversation" button on a clone's card in the explore
     * screen: shown only when `Offers` holds and clickable only while
     * nothing is loading; it starts a conversation between the current
     * user and the clone on the default topic.
     */
    method StartConversationWith(target: User, posted: bool, refreshed: Option<seq<Listed>>)
      returns (request: ConversationRequestBody, alert: string)
      requires Offers(currentUser, target) && !loading
      modifies this`loading, this`conversations
      ensures request == ConversationRequestBody(old(currentUser).value.userId, target.userId, DefaultTopic)
      ensures request.user1Id != request.user2Id
      ensures !loading
      ensures posted ==>
        && alert == GeneratedAlert
        && conversations == (if refreshed.Some? then refreshed.value else old(conversations))
      ensures !posted ==> alert == GenerateFailedAlert && conversations == old(conversations)
    {
      request, alert := HandleGenerateConversation(currentUser.value.userId, target.userId, None, posted, refreshed);
    }
  }

  /** The JSON body the client posts to `/api/conversations`. */
  datatype ConversationRequestBody = ConversationRequestBody(user1Id: string, user2Id: string, topic: string)
}
