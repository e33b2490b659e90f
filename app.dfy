/** The App component of App.tsx: its state slots, the handlers that move it through
    LOADING, LOGIN, PICKER and READY, and the search it runs over the library.

    The browser SDKs are not modelled; what they deliver reaches the handlers as
    events: whether the client library loaded, whether the identity token decoded and
    into which profile, the token response, the folder picked and the outcome of the
    file listing. The one persisted record, the saved folder, is the `storedFolder`
    slot. */
module App {
  import opened Types
  import opened Text
  import opened Seqs
  import DriveService
  import Search

  datatype AppState = Loading | Login | Picker | Ready

  datatype UserProfile = UserProfile(name: string, email: string, picture: string)

  datatype DriveFolder = DriveFolder(id: string, name: string)

  /** How loading the Google API client ended; a failure may carry a provider message. */
  datatype InitOutcome = InitSucceeded | InitFailed(message: Option<string>)

  /** Decoding the identity token: the profile it holds, or a decoding error. */
  datatype DecodeOutcome = Decoded(profile: UserProfile) | DecodeFailed

  /** The Drive listing of a folder: the file records, or a failed request. */
  datatype ListingOutcome = Listed(files: seq<DriveService.DriveFile>) | ListingFailed

  /** The folder picker: a folder was picked, or the picker was closed without one. */
  datatype PickerEvent = Picked(folder: DriveFolder) | PickerClosed

  const InitFailedMessage: string := "Could not initialize Google services. Please check your network connection and API key configuration, then refresh the page."
  const LoginFailedMessage: string := "Failed to process login. Please try again."
  const FetchFailedMessage: string := "Could not fetch files from the selected folder."
  const AuthorizationErrorPrefix: string := "Authorization error: "

  /** The value of every state slot of the component, plus the saved folder. */
  datatype Snapshot = Snapshot(
    appState: AppState,
    userProfile: Option<UserProfile>,
    driveFolder: Option<DriveFolder>,
    library: seq<LibraryItem>,
    searchResults: seq<LibraryItem>,
    error: Option<string>,
    storedFolder: Option<DriveFolder>)

  /** What every handler keeps true: a folder in use is the saved folder, READY is only
      reached with a folder, and the results shown come from the library in its order. */
  predicate Consistent(s: Snapshot) {
    && (s.driveFolder.Some? ==> s.storedFolder == s.driveFolder)
    && (s.appState == Ready ==> s.driveFolder.Some?)
    && IsSubsequence(s.searchResults, s.library)
  }

  // ---------------------------------------------------------------------------
  // Transitions

  /** `initialize`: after the client loaded, go to LOGIN and restore the saved folder;
      after a failure, go to LOGIN with the provider's message or the fixed one. */
  function Initialized(s: Snapshot, outcome: InitOutcome): Snapshot {
    match outcome
    case InitSucceeded =>
      s.(appState := Login, driveFolder := if s.storedFolder.Some? then s.storedFolder else s.driveFolder)
    case InitFailed(message) =>
      s.(error := Some(OrElse(message, InitFailedMessage)), appState := Login)
  }

  /** `handleFolderChosen`: save and select the folder, then show its files, or go back
      to the picker with an error, keeping the library, when the listing fails. */
  function FolderChosen(s: Snapshot, folder: DriveFolder, listing: ListingOutcome): Snapshot {
    var chosen := s.(storedFolder := Some(folder), driveFolder := Some(folder), appState := Loading);
    match listing
    case Listed(files) =>
      var items := DriveService.MapFiles(files);
      chosen.(library := items, searchResults := items, appState := Ready)
    case ListingFailed =>
      chosen.(error := Some(FetchFailedMessage), appState := Picker)
  }

  /** The token callback of `handleCredentialResponse`: an error goes back to LOGIN with
      the provider's description; a grant lists the selected folder, if there is one, and
      opens the picker otherwise. */
  function TokenResponded(s: Snapshot, response: DriveService.TokenResponse, listing: ListingOutcome): Snapshot {
    if Truthy(response.error) then
      s.(error := Some(AuthorizationErrorPrefix + Interpolate(response.errorDescription)), appState := Login)
    else
      match s.driveFolder
      case Some(folder) => FolderChosen(s, folder, listing)
      case None => s.(appState := Picker)
  }

  /** `handleCredentialResponse` with the token request it means to make: a token that
      does not decode only sets an error; otherwise the profile is stored and the token
      response is handled. */
  function CredentialResponded(s: Snapshot, decode: DecodeOutcome, response: DriveService.TokenResponse, listing: ListingOutcome): Snapshot {
    match decode
    case DecodeFailed => s.(error := Some(LoginFailedMessage))
    case Decoded(profile) => TokenResponded(s.(userProfile := Some(profile)), response, listing)
  }

  /** `handleCredentialResponse` as written: the token client it calls is not exported by
      the Drive service, so the call throws after the profile is stored and the handler's
      own catch reports a login failure. */
  function CredentialRespondedAsWritten(s: Snapshot, decode: DecodeOutcome): Snapshot {
    match decode
    case DecodeFailed => s.(error := Some(LoginFailedMessage))
    case Decoded(profile) => s.(userProfile := Some(profile), error := Some(LoginFailedMessage))
  }

  /** `handleConnectFolder` with the picker it means to open: a picked folder is chosen,
      a closed picker changes nothing. */
  function ConnectedFolder(s: Snapshot, event: PickerEvent, listing: ListingOutcome): Snapshot {
    match event
    case Picked(folder) => FolderChosen(s, folder, listing)
    case PickerClosed => s
  }

  /** `handleConnectFolder` as written: the picker function it calls is not exported by
      the Drive service, so the call throws before anything is changed. */
  function ConnectedFolderAsWritten(s: Snapshot): Snapshot {
    s
  }

  /** `handleLogout`: forget the profile, the folder (also the saved one), the library
      and the results, and go to LOGIN. The error message is left as it was. */
  function LoggedOut(s: Snapshot): Snapshot {
    s.(userProfile := None, driveFolder := None, library := [], searchResults := [], storedFolder := None, appState := Login)
  }

  /** `performSearch`: the results become the search of the library for the query, with
      `extracted` the keywords the awaited extractor call returned for it. */
  function Searched(s: Snapshot, query: string, extracted: seq<string>): Snapshot {
    s.(searchResults := Search.Search(s.library, query, extracted))
  }

  // ---------------------------------------------------------------------------
  // The component

  class AppComponent {
    var appState: AppState
    var userProfile: Option<UserProfile>
    var driveFolder: Option<DriveFolder>
    var library: seq<LibraryItem>
    var searchResults: seq<LibraryItem>
    var error: Option<string>
    /** The folder record persisted in local storage. */
    var storedFolder: Option<DriveFolder>

    function Snap(): Snapshot
      reads this
    {
      Snapshot(appState, userProfile, driveFolder, library, searchResults, error, storedFolder)
    }

    predicate Valid()
      reads this
    {
      Consistent(Snap())
    }

    /** The component as first rendered, with whatever folder a previous session saved. */
    constructor (saved: Option<DriveFolder>)
      ensures Valid()
      ensures Snap() == Snapshot(Loading, None, None, [], [], None, saved)
    {
      appState := Loading;
      userProfile := None;
      driveFolder := None;
      library := [];
      searchResults := [];
      error := None;
      storedFolder := saved;
    }

    method Initialize(outcome: InitOutcome)
      requires Valid()
      modifies this
      ensures Valid()
      ensures Snap() == Initialized(old(Snap()), outcome)
    {
      match outcome
      case InitSucceeded =>
        appState := Login;
        if storedFolder.Some? {
          driveFolder := storedFolder;
        }
      case InitFailed(message) =>
        error := Some(OrElse(message, InitFailedMessage));
        appState := Login;
    }

    method HandleFolderChosen(folder: DriveFolder, listing: ListingOutcome)
      requires Valid()
      modifies this
      ensures Valid()
      ensures Snap() == FolderChosen(old(Snap()), folder, listing)
    {
      storedFolder := Some(folder);
      driveFolder := Some(folder);
      appState := Loading;
      match listing
      case Listed(files) =>
        var items := DriveService.MapFiles(files);
        library := items;
        searchResults := items;
        appState := Ready;
        SubsequenceRefl(items);
      case ListingFailed =>
        error := Some(FetchFailedMessage);
        appState := Picker;
    }

    method HandleTokenResponse(response: DriveService.TokenResponse, listing: ListingOutcome)
      requires Valid()
      modifies this
      ensures Valid()
      ensures Snap() == TokenResponded(old(Snap()), response, listing)
    {
      if Truthy(response.error) {
        error := Some(AuthorizationErrorPrefix + Interpolate(response.errorDescription));
        appState := Login;
        return;
      }
      match driveFolder
      case Some(folder) =>
        HandleFolderChosen(folder, listing);
      case None =>
        appState := Picker;
    }

    method HandleCredentialResponse(decode: DecodeOutcome, response: DriveService.TokenResponse, listing: ListingOutcome)
      requires Valid()
      modifies this
      ensures Valid()
      ensures Snap() == CredentialResponded(old(Snap()), decode, response, listing)
    {
      match decode
      case DecodeFailed =>
        error := Some(LoginFailedMessage);
      case Decoded(profile) =>
        userProfile := Some(profile);
        HandleTokenResponse(response, listing);
    }

    method HandleCredentialResponseAsWritten(decode: DecodeOutcome)
      requires Valid()
      modifies this
      ensures Valid()
      ensures Snap() == CredentialRespondedAsWritten(old(Snap()), decode)
    {
      match decode
      case DecodeFailed =>
        error := Some(LoginFailedMessage);
      case Decoded(profile) =>
        userProfile := Some(profile);
        error := Some(LoginFailedMessage);
    }

    method HandleConnectFolder(event: PickerEvent, listing: ListingOutcome)
      requires Valid()
      modifies this
      ensures Valid()
      ensures Snap() == ConnectedFolder(old(Snap()), event, listing)
    {
      match event
      case Picked(folder) =>
        HandleFolderChosen(folder, listing);
      case PickerClosed =>
    }

    method HandleConnectFolderAsWritten()
      requires Valid()
      ensures Valid()
      ensures Snap() == ConnectedFolderAsWritten(old(Snap()))
    {
    }

    method HandleLogout()
      requires Valid()
      modifies this
      ensures Valid()
      ensures Snap() == LoggedOut(old(Snap()))
    {
      userProfile := None;
      driveFolder := None;
      library := [];
      searchResults := [];
      storedFolder := None;
      appState := Login;
    }

    /** `performSearch`, resumed with `extracted`, the keywords the extractor call
        returned; for a blank query the extractor is not consulted. */
    method PerformSearch(query: string, extracted: seq<string>)
      requires Valid()
      modifies this
      ensures Valid()
      ensures Snap() == Searched(old(Snap()), query, extracted)
    {
      ghost var before := Snap();
      SearchedConsistent(before, query, extracted);
      if IsBlank(query) {
        Search.BlankQueryShowsLibrary(library, query, extracted);
        searchResults := library;
        return;
      }
      var keywords := extracted;
      if |keywords| == 0 {
        keywords := keywords + Search.FallbackKeywords(query);
      }
      var lowerCaseKeywords := Search.LowerAll(keywords);
      Search.SearchSteps(library, query, extracted, keywords);
      searchResults := Search.FilterLibrary(library, lowerCaseKeywords);
    }
  }

  // ---------------------------------------------------------------------------
  // Properties of the transitions

  /** Each transition keeps the state consistent. */
  lemma InitializedConsistent(s: Snapshot, outcome: InitOutcome)
    requires Consistent(s)
    ensures Consistent(Initialized(s, outcome))
  {
  }

  lemma FolderChosenConsistent(s: Snapshot, folder: DriveFolder, listing: ListingOutcome)
    requires Consistent(s)
    ensures Consistent(FolderChosen(s, folder, listing))
  {
    if listing.Listed? {
      SubsequenceRefl(DriveService.MapFiles(listing.files));
    }
  }

  lemma CredentialRespondedConsistent(s: Snapshot, decode: DecodeOutcome, response: DriveService.TokenResponse, listing: ListingOutcome)
    requires Consistent(s)
    ensures Consistent(CredentialResponded(s, decode, response, listing))
  {
    if decode.Decoded? && !Truthy(response.error) && s.driveFolder.Some? {
      FolderChosenConsistent(s.(userProfile := Some(decode.profile)), s.driveFolder.value, listing);
    }
  }

  lemma LoggedOutConsistent(s: Snapshot)
    ensures Consistent(LoggedOut(s))
  {
  }

  lemma SearchedConsistent(s: Snapshot, query: string, extracted: seq<string>)
    requires Consistent(s)
    ensures Consistent(Searched(s, query, extracted))
  {
    Search.SearchIsSubsequence(s.library, query, extracted);
  }

  /** A successful listing after choosing a folder saves the folder and shows all its
      files; a failed one goes back to the picker with the fixed message, keeps the
      library and the results, and still saves the folder. */
  lemma FolderChosenOutcomes(s: Snapshot, folder: DriveFolder, files: seq<DriveService.DriveFile>)
    ensures var t := FolderChosen(s, folder, Listed(files));
      && t.appState == Ready
      && t.library == t.searchResults == DriveService.MapFiles(files)
      && t.driveFolder == t.storedFolder == Some(folder)
    ensures var t := FolderChosen(s, folder, ListingFailed);
      && t.appState == Picker
      && t.error == Some(FetchFailedMessage)
      && t.library == s.library && t.searchResults == s.searchResults
      && t.driveFolder == t.storedFolder == Some(folder)
  {
  }

  /** Logging out from any state forgets the profile, the folder, the saved folder, the
      library and the results, and lands in LOGIN. */
  lemma LogoutForgetsSession(s: Snapshot)
    ensures var t := LoggedOut(s);
      && t.appState == Login && t.userProfile == None && t.driveFolder == None
      && t.storedFolder == None && t.library == [] && t.searchResults == []
      && t.error == s.error
  {
  }

  /** Because logging out forgets the saved folder, the next granted token opens the
      picker instead of listing the old folder. */
  lemma LoginAfterLogoutOpensPicker(s: Snapshot, response: DriveService.TokenResponse, listing: ListingOutcome)
    requires !Truthy(response.error)
    ensures TokenResponded(LoggedOut(s), response, listing).appState == Picker
    ensures TokenResponded(LoggedOut(s), response, listing).library == []
  {
  }

  /** A token error goes back to LOGIN with the provider's description after a fixed
      prefix, and changes nothing else. */
  lemma TokenErrorGoesToLogin(s: Snapshot, response: DriveService.TokenResponse, listing: ListingOutcome)
    requires Truthy(response.error)
    ensures var t := TokenResponded(s, response, listing);
      && t.appState == Login
      && t.error.Some? && AuthorizationErrorPrefix <= t.error.value
      && t.error.value[|AuthorizationErrorPrefix|..] == Interpolate(response.errorDescription)
      && t == s.(appState := Login, error := t.error)
  {
  }

  /** A granted token lists the selected folder when there is one (exactly as choosing
      it would), and opens the picker otherwise. */
  lemma TokenGrantResumesFolder(s: Snapshot, response: DriveService.TokenResponse, listing: ListingOutcome)
    requires !Truthy(response.error)
    ensures s.driveFolder.Some? ==> TokenResponded(s, response, listing) == FolderChosen(s, s.driveFolder.value, listing)
    ensures s.driveFolder.None? ==> TokenResponded(s, response, listing) == s.(appState := Picker)
  {
  }

  /** A failed listing leaves the folder saved, so the next granted token retries the
      same folder. */
  lemma FailedListingIsRetriedOnNextGrant(s: Snapshot, folder: DriveFolder, response: DriveService.TokenResponse, listing: ListingOutcome)
    requires !Truthy(response.error)
    ensures var failed := FolderChosen(s, folder, ListingFailed);
      TokenResponded(failed, response, listing) == FolderChosen(failed, folder, listing)
  {
  }

  /** A failure to load the client still reaches LOGIN, with a non-empty message; a token
      that does not decode only sets the login error. */
  lemma InitAndDecodeFailures(s: Snapshot, message: Option<string>, response: DriveService.TokenResponse, listing: ListingOutcome)
    ensures var t := Initialized(s, InitFailed(message));
      t.appState == Login && t.error.Some? && t.error.value != ""
    ensures CredentialResponded(s, DecodeFailed, response, listing) == s.(error := Some(LoginFailedMessage))
  {
  }

  /** A user returning with a saved folder goes from start-up straight to READY over
      that folder's files once the token is granted. */
  lemma ReturningUserReachesReady(saved: DriveFolder, profile: UserProfile, response: DriveService.TokenResponse, files: seq<DriveService.DriveFile>)
    requires !Truthy(response.error)
    ensures var start := Initialized(Snapshot(Loading, None, None, [], [], None, Some(saved)), InitSucceeded);
      var t := CredentialResponded(start, Decoded(profile), response, Listed(files));
      && t.appState == Ready && t.userProfile == Some(profile) && t.driveFolder == Some(saved)
      && t.library == t.searchResults == DriveService.MapFiles(files)
  {
  }

  /** A new user signs in, lands in the picker, picks a folder and sees its files. */
  lemma NewUserReachesReady(profile: UserProfile, response: DriveService.TokenResponse, folder: DriveFolder, files: seq<DriveService.DriveFile>)
    requires !Truthy(response.error)
    ensures var start := Initialized(Snapshot(Loading, None, None, [], [], None, None), InitSucceeded);
      var signedIn := CredentialResponded(start, Decoded(profile), response, ListingFailed);
      var t := ConnectedFolder(signedIn, Picked(folder), Listed(files));
      && signedIn.appState == Picker
      && t.appState == Ready && t.storedFolder == Some(folder)
      && t.library == t.searchResults == DriveService.MapFiles(files)
  {
  }

  /** As written, a sign-in whose token decodes never leaves the state it was in and
      always reports a login failure, where the intended flow reaches the picker. */
  lemma SignInStallsAsWritten(s: Snapshot, profile: UserProfile, listing: ListingOutcome)
    requires s.appState == Login && s.driveFolder == None
    ensures var t := CredentialRespondedAsWritten(s, Decoded(profile));
      t.appState == Login && t.error == Some(LoginFailedMessage)
    ensures CredentialResponded(s, Decoded(profile), DriveService.TokenResponse(None, None), listing).appState == Picker
  {
  }

  /** As written, connecting a folder from the picker screen never leaves it, where the
      intended flow shows the picked folder's files. */
  lemma PickerNeverOpensAsWritten(s: Snapshot, folder: DriveFolder, files: seq<DriveService.DriveFile>)
    requires s.appState == Picker
    ensures ConnectedFolderAsWritten(s).appState == Picker
    ensures ConnectedFolderAsWritten(s).library == s.library
    ensures ConnectedFolder(s, Picked(folder), Listed(files)).appState == Ready
    ensures ConnectedFolder(s, Picked(folder), Listed(files)).library == DriveService.MapFiles(files)
  {
  }

  /** A blank query shows the whole library again, without consulting the extractor. */
  lemma BlankSearchShowsLibrary(s: Snapshot, query: string, extracted: seq<string>, other: seq<string>)
    requires IsBlank(query)
    ensures Searched(s, query, extracted).searchResults == s.library
    ensures Searched(s, query, extracted) == Searched(s, query, other)
  {
    Search.BlankQueryShowsLibrary(s.library, query, extracted);
    Search.BlankQueryShowsLibrary(s.library, query, other);
  }

  /** Once an error message is set, no transition clears it. */
  lemma ErrorIsNeverCleared(s: Snapshot, outcome: InitOutcome, folder: DriveFolder, decode: DecodeOutcome, response: DriveService.TokenResponse, listing: ListingOutcome, query: string, extracted: seq<string>)
    requires s.error.Some?
    ensures Initialized(s, outcome).error.Some?
    ensures FolderChosen(s, folder, listing).error.Some?
    ensures CredentialResponded(s, decode, response, listing).error.Some?
    ensures LoggedOut(s).error.Some?
    ensures Searched(s, query, extracted).error.Some?
  {
  }
}
