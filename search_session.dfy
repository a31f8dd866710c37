/** The state of the search screen and its event handlers: searching
    (`handleSearch`), selecting, editing and committing an edit
    (`handleUpdateSubmit`), starting over, and the connectivity probe that
    decides whether the backend is used. */
module SearchSession {
  import opened Wrappers
  import opened Text
  import opened Records
  import opened SearchFilter
  import opened FederatedSearch

  /** How the backend search ended, as `handleSearch` sees it. */
  datatype BackendOutcome = Completed(results: seq<Booking>) | Failed

  /** In the source the backend search catches every per-kind failure, so it
      always completes. */
  function BackendAttempt(searchType: string, value: string, gateway: Kind -> KindReplies, serialise: Booking -> string): (r: BackendOutcome)
    ensures r.Completed? && r.results == BackendSearch(searchType, value, gateway, serialise)
  {
    Completed(BackendSearch(searchType, value, gateway, serialise))
  }

  const EmptySearchMessage := "Please enter a search term"

  function NotFoundMessage(value: string, searchType: string): string {
    "No bookings found for \"" + value + "\" in " + SearchTypeLabel(searchType)
  }

  /** `{ ...updatedData, lastModified: now }` */
  function Stamped(updated: Booking, now: string): (r: Booking)
    ensures Get(r, "lastModified") == Some(now)
    ensures forall k :: k != "lastModified" ==> Get(r, k) == Get(updated, k)
    ensures r.journeyDetails == updated.journeyDetails
  {
    Put(updated, "lastModified", now)
  }

  /** The test of the commit's `map`: the same ticket ID or the same `_id`,
      where two undefined values are equal, as with `===`. */
  predicate SameRecord(r: Booking, sel: Booking) {
    Get(r, "ticketId") == Get(sel, "ticketId") || Get(r, "_id") == Get(sel, "_id")
  }

  /** `results.map(r => SameRecord(r, sel) ? committed : r)` */
  function ReplaceMatching(results: seq<Booking>, sel: Booking, committed: Booking): (r: seq<Booking>)
    ensures |r| == |results|
    ensures forall i :: 0 <= i < |results| && SameRecord(results[i], sel) ==> r[i] == committed
    ensures forall i :: 0 <= i < |results| && !SameRecord(results[i], sel) ==> r[i] == results[i]
  {
    seq(|results|, i requires 0 <= i < |results| => if SameRecord(results[i], sel) then committed else results[i])
  }

  /** A selection taken from the list is replaced in it by the committed record. */
  lemma CommittedReplacesSelection(results: seq<Booking>, sel: Booking, committed: Booking)
    requires sel in results
    ensures committed in ReplaceMatching(results, sel, committed)
    ensures sel !in ReplaceMatching(results, sel, committed) || sel == committed
  {
    var i :| 0 <= i < |results| && results[i] == sel;
    assert ReplaceMatching(results, sel, committed)[i] == committed;
  }

  /** Replacing a second time changes nothing. */
  lemma ReplaceMatchingIdempotent(results: seq<Booking>, sel: Booking, committed: Booking)
    ensures ReplaceMatching(ReplaceMatching(results, sel, committed), sel, committed)
         == ReplaceMatching(results, sel, committed)
  {
  }

  /** A selection without a ticket ID matches every result that lacks one too,
      so all of them are overwritten by the committed record. */
  lemma MissingTicketIdMatchesAll(results: seq<Booking>, sel: Booking, committed: Booking, i: nat)
    requires "ticketId" !in sel.fields
    requires i < |results| && "ticketId" !in results[i].fields
    ensures ReplaceMatching(results, sel, committed)[i] == committed
  {
  }

  /** `/${bookingType}-bookings/${id}`, the path `updateBookingViaAPI` uses,
      as written. */
  function UpdatePathAsWritten(bookingType: string, id: string): string {
    "/" + bookingType + "-bookings/" + id
  }

  /** For a transfer record the path as written leaves the collection the
      search lists the kind from. */
  lemma TransferUpdateMissesCollection(id: string)
    ensures !StartsWith(UpdatePathAsWritten(Tag(AirportTransfer), id), Collection(Slug(AirportTransfer)))
  {
    assert UpdatePathAsWritten(Tag(AirportTransfer), id)[8] == '_';
    assert Collection(Slug(AirportTransfer))[8] == '-';
  }

  /** The update path with a known tag mapped to its collection's spelling. */
  function UpdatePath(bookingType: string, id: string): (r: string)
    ensures KindOfTag(bookingType).None? ==> r == UpdatePathAsWritten(bookingType, id)
  {
    match KindOfTag(bookingType)
    case Some(k) => Collection(Slug(k)) + "/" + id
    case None => UpdatePathAsWritten(bookingType, id)
  }

  /** Every searched kind is updated inside the collection it was found in. */
  lemma UpdatePathInCollection(k: Kind, id: string)
    ensures StartsWith(UpdatePath(Tag(k), id), Collection(Slug(k)) + "/")
    ensures k != AirportTransfer && k != CarRental ==> UpdatePath(Tag(k), id) == UpdatePathAsWritten(Tag(k), id)
  {
    TagRoundTrip(k);
  }

  /** Where `handleSearch` takes its results from: the backend's when it is
      on and its search completed, the local records otherwise. */
  function Chosen(useBackend: bool, backend: BackendOutcome, bookingData: Option<seq<Booking>>,
                  value: string, searchType: string, serialise: Booking -> string): (r: seq<Booking>)
    ensures useBackend && backend.Completed? ==> r == backend.results
    ensures !(useBackend && backend.Completed?) ==> r == PropsSearch(bookingData, value, searchType, serialise)
  {
    if useBackend && backend.Completed? then backend.results
    else PropsSearch(bookingData, value, searchType, serialise)
  }

  /** The automatic selection: the only result, if there is exactly one. */
  function Single(results: seq<Booking>): (r: Option<Booking>)
    ensures r.Some? <==> |results| == 1
    ensures r.Some? ==> results == [r.value]
  {
    if |results| == 1 then Some(results[0]) else None
  }

  /** What a finished search leaves on the screen. */
  datatype Found = Found(results: seq<Booking>, selected: Option<Booking>, error: string, useBackend: bool)

  /** The outcome of a search for a non-blank value: the chosen results; a
      single result selected; the not-found message for no result; and the
      backend turned off for the session when its search failed. */
  function SearchStep(useBackend: bool, backend: BackendOutcome, bookingData: Option<seq<Booking>>,
                      value: string, searchType: string, serialise: Booking -> string): (r: Found)
    ensures r.results == Chosen(useBackend, backend, bookingData, value, searchType, serialise)
    ensures r.useBackend <==> useBackend && backend.Completed?
  {
    var results := Chosen(useBackend, backend, bookingData, value, searchType, serialise);
    Found(results, Single(results),
          if results == [] then NotFoundMessage(value, searchType) else "",
          useBackend && backend.Completed?)
  }

  /** The selection after a search is one of the results, and there is one
      exactly when the search found a single record. */
  lemma SearchSelectsSingle(useBackend: bool, backend: BackendOutcome, bookingData: Option<seq<Booking>>,
                            value: string, searchType: string, serialise: Booking -> string)
    ensures var r := SearchStep(useBackend, backend, bookingData, value, searchType, serialise);
      (r.selected.Some? <==> |r.results| == 1) && (r.selected.Some? ==> r.selected.value in r.results)
  {
  }

  /** The error is shown exactly when nothing was found. */
  lemma SearchErrorIffEmpty(useBackend: bool, backend: BackendOutcome, bookingData: Option<seq<Booking>>,
                            value: string, searchType: string, serialise: Booking -> string)
    ensures var r := SearchStep(useBackend, backend, bookingData, value, searchType, serialise);
      (r.error != "" <==> r.results == []) && (r.results == [] ==> r.error == NotFoundMessage(value, searchType))
  {
  }

  /** A failed backend search falls back to the local records and switches
      the backend off; a later search then stays local even if the backend
      would answer. */
  lemma FallbackIsSticky(backend: BackendOutcome, later: BackendOutcome, bookingData: Option<seq<Booking>>,
                         value: string, searchType: string, serialise: Booking -> string)
    ensures var r := SearchStep(true, Failed, bookingData, value, searchType, serialise);
      !r.useBackend && r.results == PropsSearch(bookingData, value, searchType, serialise)
      && SearchStep(r.useBackend, later, bookingData, value, searchType, serialise).results
         == PropsSearch(bookingData, value, searchType, serialise)
  {
  }

  /** A call of the `onUpdateBooking(key, data)` callback. */
  datatype UpdateCall = UpdateCall(key: Option<string>, data: Booking)

  /** A `PUT` of `body` to `path` on the backend. */
  datatype PutRequest = PutRequest(path: string, body: Booking)

  class Session {
    var searchType: string
    var searchValue: string
    var searchResults: seq<Booking>
    var selectedResult: Option<Booking>
    var isEditing: bool
    var editingForm: Option<FormChoice>
    var searchError: string
    var isLoading: bool
    var useBackend: bool
    /** The `bookingData` prop: the locally held records, if any. */
    const bookingData: Option<seq<Booking>>
    /** Whether the `onUpdateBooking` prop was given. */
    const hasUpdateCallback: bool
    /** `JSON.stringify`, for the all-fields search. */
    const serialise: Booking -> string

    constructor (bookingData: Option<seq<Booking>>, hasUpdateCallback: bool, serialise: Booking -> string)
      ensures searchType == "ticketId" && searchValue == "" && searchResults == []
      ensures selectedResult == None && !isEditing && editingForm == None
      ensures searchError == "" && !isLoading && useBackend
      ensures this.bookingData == bookingData && this.hasUpdateCallback == hasUpdateCallback
      ensures this.serialise == serialise
    {
      searchType := "ticketId";
      searchValue := "";
      searchResults := [];
      selectedResult := None;
      isEditing := false;
      editingForm := None;
      searchError := "";
      isLoading := false;
      useBackend := true;
      this.bookingData := bookingData;
      this.hasUpdateCallback := hasUpdateCallback;
      this.serialise := serialise;
    }

    /** The search-type select and the search input. */
    method SetQuery(searchType: string, searchValue: string)
      modifies this`searchType, this`searchValue
      ensures this.searchType == searchType && this.searchValue == searchValue
    {
      this.searchType := searchType;
      this.searchValue := searchValue;
    }

    /** The probe on mount: the backend is used iff `/flight-bookings` answers. */
    method CheckConnectivity<T>(probe: Reply<T>)
      modifies this`useBackend
      ensures useBackend <==> probe.Answered?
    {
      match probe
      case Answered(_, _) => useBackend := true;
      case Threw => useBackend := false;
    }

    /** `handleSearch` against the backend: the backend search never fails,
        so the backend stays on. */
    method HandleSearch(gateway: Kind -> KindReplies)
      modifies this`searchResults, this`selectedResult, this`searchError, this`isLoading, this`useBackend
      ensures IsBlank(old(searchValue)) ==>
        searchError == EmptySearchMessage && searchResults == old(searchResults)
        && selectedResult == old(selectedResult) && isLoading == old(isLoading)
      ensures !IsBlank(old(searchValue)) ==>
        Shown() == SearchStep(old(useBackend), BackendAttempt(old(searchType), old(searchValue), gateway, serialise),
                              bookingData, old(searchValue), old(searchType), serialise)
        && !isLoading
      ensures useBackend == old(useBackend)
    {
      RunSearch(BackendAttempt(searchType, searchValue, gateway, serialise));
    }

    /** What the screen shows of a finished search. */
    function Shown(): Found
      reads this
    {
      Found(searchResults, selectedResult, searchError, useBackend)
    }

    /** The body of `handleSearch` for a given backend outcome: a blank value
        only sets an error; otherwise the screen shows `SearchStep`. */
    method RunSearch(backend: BackendOutcome)
      modifies this`searchResults, this`selectedResult, this`searchError, this`isLoading, this`useBackend
      ensures IsBlank(old(searchValue)) ==>
        searchError == EmptySearchMessage && searchResults == old(searchResults)
        && selectedResult == old(selectedResult) && useBackend == old(useBackend)
        && isLoading == old(isLoading)
      ensures !IsBlank(old(searchValue)) ==>
        Shown() == SearchStep(old(useBackend), backend, bookingData, old(searchValue), old(searchType), serialise)
        && !isLoading
    {
      var value, kind, backendOn := searchValue, searchType, useBackend;
      if IsBlank(value) {
        searchError := EmptySearchMessage;
        return;
      }
      isLoading := true;
      searchError := "";
      searchResults := [];
      selectedResult := None;
      Show(SearchStep(backendOn, backend, bookingData, value, kind, serialise));
    }

    /** The state updates that end a search. */
    method Show(found: Found)
      modifies this`searchResults, this`selectedResult, this`searchError, this`isLoading, this`useBackend
      ensures Shown() == found && !isLoading
    {
      searchResults := found.results;
      selectedResult := found.selected;
      searchError := found.error;
      useBackend := found.useBackend;
      isLoading := false;
    }

    /** Clicking a result selects it. */
    method HandleSelectResult(b: Booking)
      modifies this`selectedResult
      ensures selectedResult == Some(b)
    {
      selectedResult := Some(b);
    }

    /** `handleEdit`: editing mode, with the form for the selection's type.
        Without a selection the form lookup throws after editing mode was
        set, and no form is opened. */
    method HandleEdit()
      modifies this`isEditing, this`editingForm
      ensures isEditing
      ensures selectedResult.Some? ==> editingForm == Some(FormFor(Get(selectedResult.value, "bookingType")))
      ensures selectedResult.None? ==> editingForm == old(editingForm)
    {
      isEditing := true;
      if selectedResult.Some? {
        editingForm := Some(FormFor(Get(selectedResult.value, "bookingType")));
      }
    }

    method HandleCancelEdit()
      modifies this`isEditing, this`editingForm
      ensures !isEditing && editingForm == None
    {
      isEditing := false;
      editingForm := None;
    }

    method HandleNewSearch()
      modifies this
      ensures searchValue == "" && searchResults == [] && selectedResult == None
      ensures searchError == "" && !isEditing && editingForm == None
      ensures searchType == old(searchType) && useBackend == old(useBackend) && isLoading == old(isLoading)
    {
      searchValue := "";
      searchResults := [];
      selectedResult := None;
      searchError := "";
      isEditing := false;
      editingForm := None;
    }

    /** `handleUpdateSubmit`. With a selection: when the backend is on and
        the selection has an `_id`, the stamped data is `PUT`; a success
        commits the record the server returns. Otherwise, or when the `PUT`
        fails, the callback (if given) receives `ticketId || _id` and the
        stamped data, which is then committed. The committed record becomes
        the selection and replaces every matching result; editing ends.
        Without a selection the handler fails before changing anything.
        `ok` tells which alert is shown. */
    method HandleUpdateSubmit(updated: Booking, remote: Reply<Booking>, now: string)
      returns (call: Option<UpdateCall>, put: Option<PutRequest>, ok: bool)
      modifies this`selectedResult, this`searchResults, this`isEditing, this`editingForm, this`isLoading
      ensures ok <==> old(selectedResult).Some?
      ensures !ok ==>
        call == None && put == None
        && selectedResult == old(selectedResult) && searchResults == old(searchResults)
        && isEditing == old(isEditing) && editingForm == old(editingForm)
      ensures ok ==>
        var sel := old(selectedResult).value;
        var tried := old(useBackend) && Truthy(Get(sel, "_id"));
        var saved := tried && remote.Answered? && remote.success;
        var committed := if saved then remote.data else Stamped(updated, now);
        put == (if tried then Some(PutRequest(UpdatePath(OrElse(Get(sel, "bookingType"), "flight"), Get(sel, "_id").value), Stamped(updated, now))) else None)
        && call == (if !saved && hasUpdateCallback then Some(UpdateCall(Or(Get(sel, "ticketId"), Get(sel, "_id")), Stamped(updated, now))) else None)
        && selectedResult == Some(committed)
        && searchResults == ReplaceMatching(old(searchResults), sel, committed)
        && !isEditing && editingForm == None
      ensures !isLoading
    {
      isLoading := true;
      call, put := None, None;
      if selectedResult.None? {
        ok := false;
        isLoading := false;
        return;
      }
      var sel := selectedResult.value;
      var stamped := Stamped(updated, now);
      var committed := stamped;
      var saved := false;
      if useBackend && Truthy(Get(sel, "_id")) {
        put := Some(PutRequest(UpdatePath(OrElse(Get(sel, "bookingType"), "flight"), Get(sel, "_id").value), stamped));
        if remote.Answered? && remote.success {
          committed := remote.data;
          saved := true;
        }
      }
      if !saved && hasUpdateCallback {
        call := Some(UpdateCall(Or(Get(sel, "ticketId"), Get(sel, "_id")), stamped));
      }
      selectedResult := Some(committed);
      searchResults := ReplaceMatching(searchResults, sel, committed);
      isEditing := false;
      editingForm := None;
      ok := true;
      isLoading := false;
    }
  }

  /** After a commit the selection is in the result list whenever the old
      selection was, and the list keeps its length. */
  lemma CommitKeepsSelectionListed(results: seq<Booking>, sel: Booking, committed: Booking)
    requires sel in results
    ensures |ReplaceMatching(results, sel, committed)| == |results|
    ensures committed in ReplaceMatching(results, sel, committed)
  {
    CommittedReplacesSelection(results, sel, committed);
  }
}
