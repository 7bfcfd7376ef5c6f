/**
 * The command pipeline: one user input is classified by the language model
 * into an action descriptor, dispatched on its action kind to the CRM, and
 * answered with a response string that is appended to the conversation as
 * one assistant message. The language model and the CRM are oracles in a
 * `Network` value; every call the pipeline makes is recorded in order.
 */
module ChatProcessor {
  import opened Wrappers
  import opened Json
  import opened Errors
  import opened ChatStore
  import opened Auth

  /** The parameters a recognised action reads, taken as the classifier gave them. */
  datatype Parameters = Parameters(
    objectName: string,
    recordId: string,
    fields: Value,
    taskFields: Value,
    description: string)

  /** The action descriptor: `action` is missing when the reply had none. */
  datatype Command = Command(action: Option<string>, parameters: Parameters, query: string)

  /** The classifier's reply content. */
  datatype Reply =
    | NoContent                       // `null` or empty: parsed as `{}`
    | Parsed(command: Command)        // a JSON object
    | Unparseable(message: string)    // `JSON.parse` throws

  /** How a failed CRM query reports itself (`error.response?.data`). */
  datatype ErrorBody =
    | NoBody                          // no response, or a body without a length
    | ErrorList(messages: seq<string>) // the CRM's list of errors, by their `message`

  datatype QueryResponse =
    | QueryOk(data: Value)
    | QueryFailed(error: Error, body: ErrorBody)

  /** One entry of the CRM's object catalogue. */
  datatype SObject = SObject(name: string, queryable: bool)

  /** The hosted services, as the answers they give to each request. */
  datatype Network = Network(
    classify: string -> Result<Reply, Error>,
    query: string -> QueryResponse,
    update: (string, string, Value) -> Outcome<Error>,
    create: (string, Value) -> Result<string, Error>,
    catalogue: Result<seq<SObject>, Error>,
    generate: (string, Value, map<string, Value>) -> Result<Option<string>, Error>)

  /** A request sent to a hosted service. */
  datatype Call =
    | ClassifyCall(input: string)
    | CrmQuery(soql: string)
    | CrmUpdate(objectName: string, recordId: string)
    | CrmCreate(objectName: string)
    | GenerateCall

  /** The ids and timestamps the store draws for the records one input may add. */
  datatype Stamps = Stamps(messageId: string, messageTime: int, favoriteId: string, favoriteTime: int)

  datatype Kind = QueryKind | UpdateKind | CreateKind | AnalyzeKind | TaskKind | FavoriteKind | HelpKind | UnknownKind

  /** The `switch (command.action)`: strict comparison with the seven action names. */
  function KindOf(action: Option<string>): (k: Kind)
    ensures k != UnknownKind <==>
              action.Some? && action.value in {"query", "update", "create", "analyze", "task", "favorite", "help"}
    ensures k == QueryKind <==> action == Some("query")
    ensures k == UpdateKind <==> action == Some("update")
    ensures k == CreateKind <==> action == Some("create")
    ensures k == AnalyzeKind <==> action == Some("analyze")
    ensures k == TaskKind <==> action == Some("task")
    ensures k == FavoriteKind <==> action == Some("favorite")
    ensures k == HelpKind <==> action == Some("help")
  {
    match action
    case None => UnknownKind
    case Some(a) =>
      if a == "query" then QueryKind
      else if a == "update" then UpdateKind
      else if a == "create" then CreateKind
      else if a == "analyze" then AnalyzeKind
      else if a == "task" then TaskKind
      else if a == "favorite" then FavoriteKind
      else if a == "help" then HelpKind
      else UnknownKind
  }

  const LastAnalysis := "lastAnalysis"
  const NoResponseGenerated := "No response generated"
  const FavoriteSaved := "Command saved to favorites."
  const HelpText :=
    "Available commands:\n"
    + "- Query data: \"Show me...\", \"List...\", \"Find...\"\n"
    + "- Update records: \"Update...\", \"Change...\"\n"
    + "- Create records: \"Create...\", \"Add...\"\n"
    + "- Analyze data: \"Calculate...\", \"Compare...\"\n"
    + "- Tasks: \"Remind me...\", \"Create task...\"\n"
    + "- Favorites: \"Save this as favorite...\""

  function UpdatedText(objectName: string): string {
    "Updated " + objectName + " record successfully."
  }

  function CreatedText(objectName: string, id: string): string {
    "Created new " + objectName + " record with ID: " + id
  }

  function TaskCreatedText(id: string): string {
    "Created new task with ID: " + id
  }

  /** `parseCommand`: the classifier's reply, with no content read as `{}`. */
  function ParseCommand(reply: Result<Reply, Error>): (r: Result<Command, Error>)
    ensures reply == Success(NoContent) ==> r.Success? && r.value.action == None
    ensures reply.Success? && reply.value.Parsed? ==> r == Success(reply.value.command)
    ensures reply.Success? && reply.value.Unparseable? ==> r == Failure(Thrown(reply.value.message))
    ensures reply.Failure? ==> r == Failure(reply.error)
  {
    match reply
    case Failure(e) => Failure(e)
    case Success(NoContent) =>
      Success(Command(None, Parameters("", "", Null, Null, ""), ""))
    case Success(Parsed(command)) => Success(command)
    case Success(Unparseable(message)) => Failure(Thrown(message))
  }

  /** Both CRM credentials are stored and truthy. */
  predicate HasCrmCredentials(items: map<string, Value>) {
    TruthyAt(items, SalesforceToken) && TruthyAt(items, SalesforceInstanceUrl)
  }

  /** The requests `executeSOQL` sends: none without credentials. */
  function QueryCalls(items: map<string, Value>, soql: string): seq<Call> {
    if HasCrmCredentials(items) then [CrmQuery(soql)] else []
  }

  /** `executeSOQL`: the credential guard, then the query and its error mapping. */
  function QueryOutcome(items: map<string, Value>, soql: string, net: Network): (r: Result<Value, Error>)
    ensures !HasCrmCredentials(items) ==> r == Failure(CredentialsMissing)
    ensures HasCrmCredentials(items) && net.query(soql).QueryOk? ==> r == Success(net.query(soql).data)
    ensures HasCrmCredentials(items) && net.query(soql).QueryFailed? ==>
              var body := net.query(soql).body;
              if body.ErrorList? && |body.messages| > 0 then r == Failure(QueryError(body.messages[0]))
              else r == Failure(net.query(soql).error)
  {
    var credentials := Lookup(items, [SalesforceToken, SalesforceInstanceUrl]);
    LookupTruthyAt(items, [SalesforceToken, SalesforceInstanceUrl], SalesforceToken);
    LookupTruthyAt(items, [SalesforceToken, SalesforceInstanceUrl], SalesforceInstanceUrl);
    if !TruthyAt(credentials, SalesforceToken) || !TruthyAt(credentials, SalesforceInstanceUrl) then
      Failure(CredentialsMissing)
    else
      match net.query(soql)
      case QueryOk(data) => Success(data)
      case QueryFailed(error, body) =>
        if body.ErrorList? && |body.messages| > 0 then Failure(QueryError(body.messages[0]))
        else Failure(error)
  }

  /** `executeSOQL`, reading the credentials from storage. */
  method ExecuteSOQL(storage: LocalStorage, soql: string, net: Network)
    returns (r: Result<Value, Error>, calls: seq<Call>)
    ensures r == QueryOutcome(storage.items, soql, net)
    ensures calls == QueryCalls(storage.items, soql)
    ensures calls == [] <==> !HasCrmCredentials(storage.items)
  {
    var credentials := GetFromStorage(storage, [SalesforceToken, SalesforceInstanceUrl]);
    if !TruthyAt(credentials, SalesforceToken) || !TruthyAt(credentials, SalesforceInstanceUrl) {
      return Failure(CredentialsMissing), [];
    }
    calls := [CrmQuery(soql)];
    match net.query(soql) {
      case QueryOk(data) =>
        r := Success(data);
      case QueryFailed(error, body) =>
        if body.ErrorList? && |body.messages| > 0 {
          r := Failure(QueryError(body.messages[0]));
        } else {
          r := Failure(error);
        }
    }
  }

  /** `.filter((obj) => obj.queryable).map((obj) => obj.name)` */
  function QueryableNames(catalogue: seq<SObject>): (names: seq<string>)
    ensures |names| <= |catalogue|
    ensures forall n :: n in names <==>
              exists i :: 0 <= i < |catalogue| && catalogue[i].queryable && catalogue[i].name == n
  {
    if catalogue == [] then []
    else
      var rest := QueryableNames(catalogue[1..]);
      assert forall i :: 0 < i < |catalogue| ==> catalogue[i] == catalogue[1..][i - 1];
      if catalogue[0].queryable then [catalogue[0].name] + rest else rest
  }

  /** The names keep the catalogue's order: the filter distributes over concatenation. */
  lemma {:induction false} QueryableNamesAppend(a: seq<SObject>, b: seq<SObject>)
    ensures QueryableNames(a + b) == QueryableNames(a) + QueryableNames(b)
  {
    if a == [] {
      assert a + b == b;
    } else {
      assert (a + b)[0] == a[0] && (a + b)[1..] == a[1..] + b;
      QueryableNamesAppend(a[1..], b);
    }
  }

  /** `listSObjects`: the queryable objects' names, or the request's error unchanged. */
  function ListSObjects(net: Network): (r: Result<seq<string>, Error>)
    ensures net.catalogue.Failure? ==> r == Failure(net.catalogue.error)
    ensures net.catalogue.Success? ==> r == Success(QueryableNames(net.catalogue.value))
    ensures net.catalogue.Success? ==>
              && r.Success?
              && forall n :: n in r.value <==>
                   exists i :: 0 <= i < |net.catalogue.value| && net.catalogue.value[i].queryable
                               && net.catalogue.value[i].name == n
  {
    match net.catalogue
    case Failure(e) => Failure(e)
    case Success(catalogue) => Success(QueryableNames(catalogue))
  }

  /** `generateResponse`: the model's text, or the fallback when it gave none. */
  function GenerateResponse(net: Network, input: string, result: Value, context: map<string, Value>)
    : (r: Result<string, Error>)
    ensures r.Success? ==> r.value != ""
    ensures r.Failure? <==> net.generate(input, result, context).Failure?
    ensures net.generate(input, result, context).Failure? ==> r == Failure(net.generate(input, result, context).error)
    ensures r.Success? && r.value != NoResponseGenerated ==>
              net.generate(input, result, context) == Success(Some(r.value))
    ensures forall s :: net.generate(input, result, context) == Success(Some(s)) && s != "" ==> r == Success(s)
  {
    match net.generate(input, result, context)
    case Failure(e) => Failure(e)
    case Success(content) =>
      if content.Some? && content.value != "" then Success(content.value) else Success(NoResponseGenerated)
  }

  /** What handling one parsed command does: its answer, its requests and the store fields it sets. */
  datatype Step = Step(
    response: Result<string, Error>,
    calls: seq<Call>,
    context: map<string, Value>,
    favorites: seq<Favorite>)

  /** The `switch` of `processUserInput`, as a function of the store fields before it. */
  function Dispatch(input: string, command: Command, items: map<string, Value>,
                    context: map<string, Value>, favorites: seq<Favorite>,
                    net: Network, stamps: Stamps): (s: Step)
    ensures |s.calls| <= 2
    ensures favorites <= s.favorites && |s.favorites| <= |favorites| + 1
    ensures context.Keys <= s.context.Keys
  {
    var p := command.parameters;
    match KindOf(command.action)
    case QueryKind =>
      var result := QueryOutcome(items, command.query, net);
      if result.Failure? then
        Step(Failure(result.error), QueryCalls(items, command.query), context, favorites)
      else
        Step(GenerateResponse(net, input, result.value, context),
             QueryCalls(items, command.query) + [GenerateCall], context, favorites)
    case UpdateKind =>
      var updated := net.update(p.objectName, p.recordId, p.fields);
      Step(if updated.Fail? then Failure(updated.error) else Success(UpdatedText(p.objectName)),
           [CrmUpdate(p.objectName, p.recordId)], context, favorites)
    case CreateKind =>
      var created := net.create(p.objectName, p.fields);
      Step(if created.Failure? then Failure(created.error) else Success(CreatedText(p.objectName, created.value)),
           [CrmCreate(p.objectName)], context, favorites)
    case AnalyzeKind =>
      var result := QueryOutcome(items, command.query, net);
      if result.Failure? then
        Step(Failure(result.error), QueryCalls(items, command.query), context, favorites)
      else
        var response := GenerateResponse(net, input, result.value, context);
        Step(response, QueryCalls(items, command.query) + [GenerateCall],
             if response.Failure? then context else Merged(context, map[LastAnalysis := result.value]),
             favorites)
    case TaskKind =>
      var created := net.create("Task", p.taskFields);
      Step(if created.Failure? then Failure(created.error) else Success(TaskCreatedText(created.value)),
           [CrmCreate("Task")], context, favorites)
    case FavoriteKind =>
      Step(Success(FavoriteSaved), [], context,
           favorites + [Favorite(stamps.favoriteId, input, p.description, stamps.favoriteTime)])
    case HelpKind =>
      Step(Success(HelpText), [], context, favorites)
    case UnknownKind =>
      Step(Failure(UnknownCommand), [], context, favorites)
  }

  /** One input once the model client exists: classification, then dispatch. */
  function Turn(input: string, items: map<string, Value>, context: map<string, Value>,
                favorites: seq<Favorite>, net: Network, stamps: Stamps): (t: Step)
    ensures 1 <= |t.calls| <= 3 && t.calls[0] == ClassifyCall(input)
    ensures favorites <= t.favorites && |t.favorites| <= |favorites| + 1
    ensures context.Keys <= t.context.Keys
  {
    var command := ParseCommand(net.classify(input));
    if command.Failure? then
      Step(Failure(command.error), [ClassifyCall(input)], context, favorites)
    else
      var step := Dispatch(input, command.value, items, context, favorites, net, stamps);
      step.(calls := [ClassifyCall(input)] + step.calls)
  }

  // ---- Dispatch rules ----

  /** `help` and `favorite` send no request and answer with fixed text; `favorite` appends one favourite. */
  lemma OfflineActions(input: string, command: Command, items: map<string, Value>,
                       context: map<string, Value>, favorites: seq<Favorite>, net: Network, stamps: Stamps)
    requires KindOf(command.action) in {HelpKind, FavoriteKind}
    ensures var step := Dispatch(input, command, items, context, favorites, net, stamps);
            && step.calls == []
            && step.context == context
            && (KindOf(command.action) == HelpKind ==>
                  step.response == Success(HelpText) && step.favorites == favorites)
            && (KindOf(command.action) == FavoriteKind ==>
                  step.response == Success(FavoriteSaved)
                  && step.favorites == favorites
                     + [Favorite(stamps.favoriteId, input, command.parameters.description, stamps.favoriteTime)])
  {
  }

  /** An action outside the seven kinds fails and changes nothing, after the classification request only. */
  lemma UnknownActionFails(input: string, command: Command, items: map<string, Value>,
                           context: map<string, Value>, favorites: seq<Favorite>, net: Network, stamps: Stamps)
    requires net.classify(input) == Success(Parsed(command))
    requires KindOf(command.action) == UnknownKind
    ensures Turn(input, items, context, favorites, net, stamps)
         == Step(Failure(UnknownCommand), [ClassifyCall(input)], context, favorites)
  {
  }

  /** A reply without content is read as `{}`, whose missing action is unknown. */
  lemma EmptyReplyIsUnknown(input: string, items: map<string, Value>, context: map<string, Value>,
                            favorites: seq<Favorite>, net: Network, stamps: Stamps)
    requires net.classify(input) == Success(NoContent)
    ensures Turn(input, items, context, favorites, net, stamps)
         == Step(Failure(UnknownCommand), [ClassifyCall(input)], context, favorites)
  {
  }

  /**
   * A failed classification request, or a reply that is not JSON, ends the turn
   * with that error itself; neither is read as an unknown command.
   */
  lemma ClassifierFailurePropagates(input: string, items: map<string, Value>, context: map<string, Value>,
                                    favorites: seq<Favorite>, net: Network, stamps: Stamps)
    requires net.classify(input).Failure? || net.classify(input).value.Unparseable?
    ensures Turn(input, items, context, favorites, net, stamps)
         == Step(Failure(if net.classify(input).Failure? then net.classify(input).error
                         else Thrown(net.classify(input).value.message)),
                 [ClassifyCall(input)], context, favorites)
  {
  }

  /** `create` answers with exactly the id the CRM returned; `task` creates a "Task" from `taskFields`. */
  lemma CreateEmbedsRecordId(input: string, command: Command, items: map<string, Value>,
                             context: map<string, Value>, favorites: seq<Favorite>, net: Network, stamps: Stamps)
    requires KindOf(command.action) in {CreateKind, TaskKind}
    ensures var step := Dispatch(input, command, items, context, favorites, net, stamps);
            var p := command.parameters;
            && step.context == context && step.favorites == favorites
            && (KindOf(command.action) == CreateKind ==>
                  && step.calls == [CrmCreate(p.objectName)]
                  && (forall id :: net.create(p.objectName, p.fields) == Success(id) ==>
                        step.response == Success("Created new " + p.objectName + " record with ID: " + id)))
            && (KindOf(command.action) == TaskKind ==>
                  && step.calls == [CrmCreate("Task")]
                  && (forall id :: net.create("Task", p.taskFields) == Success(id) ==>
                        step.response == Success("Created new task with ID: " + id)))
  {
  }

  /**
   * `query` and `analyze`: once the query succeeds, the answer is the generated
   * text for its result; a failed query is the answer, with no generation request.
   */
  lemma QueryActionsAnswerWithGeneration(input: string, command: Command, items: map<string, Value>,
                                         context: map<string, Value>, favorites: seq<Favorite>,
                                         net: Network, stamps: Stamps)
    requires KindOf(command.action) in {QueryKind, AnalyzeKind}
    ensures var step := Dispatch(input, command, items, context, favorites, net, stamps);
            var result := QueryOutcome(items, command.query, net);
            && (result.Success? ==>
                  && step.response == GenerateResponse(net, input, result.value, context)
                  && step.calls == QueryCalls(items, command.query) + [GenerateCall])
            && (result.Failure? ==>
                  && step.response == Failure(result.error)
                  && step.calls == QueryCalls(items, command.query))
  {
  }

  /**
   * `update`, `create` and `task` send exactly one CRM request; `update` confirms
   * with "Updated <object> record successfully.", and a failed request's own error
   * is the answer.
   */
  lemma CrmActionsAnswer(input: string, command: Command, items: map<string, Value>,
                         context: map<string, Value>, favorites: seq<Favorite>, net: Network, stamps: Stamps)
    requires KindOf(command.action) in {UpdateKind, CreateKind, TaskKind}
    ensures var step := Dispatch(input, command, items, context, favorites, net, stamps);
            var p := command.parameters;
            && (KindOf(command.action) == UpdateKind ==>
                  && step.calls == [CrmUpdate(p.objectName, p.recordId)]
                  && (net.update(p.objectName, p.recordId, p.fields) == Pass ==>
                        step.response == Success("Updated " + p.objectName + " record successfully."))
                  && (forall e :: net.update(p.objectName, p.recordId, p.fields) == Fail(e) ==>
                        step.response == Failure(e)))
            && (KindOf(command.action) == CreateKind && net.create(p.objectName, p.fields).Failure? ==>
                  step.response == Failure(net.create(p.objectName, p.fields).error))
            && (KindOf(command.action) == TaskKind && net.create("Task", p.taskFields).Failure? ==>
                  step.response == Failure(net.create("Task", p.taskFields).error))
  {
  }

  /** A failed input leaves the context and the favourites as they were. */
  lemma FailureChangesNothing(input: string, items: map<string, Value>, context: map<string, Value>,
                              favorites: seq<Favorite>, net: Network, stamps: Stamps)
    requires Turn(input, items, context, favorites, net, stamps).response.Failure?
    ensures Turn(input, items, context, favorites, net, stamps).context == context
    ensures Turn(input, items, context, favorites, net, stamps).favorites == favorites
  {
  }

  /**
   * Only a successful `analyze` changes the context, and it merges exactly
   * `{lastAnalysis: result}` into it; in particular `query` never does.
   */
  lemma OnlyAnalyzeChangesContext(input: string, command: Command, items: map<string, Value>,
                                  context: map<string, Value>, favorites: seq<Favorite>, net: Network, stamps: Stamps)
    ensures var step := Dispatch(input, command, items, context, favorites, net, stamps);
            var result := QueryOutcome(items, command.query, net);
            && (KindOf(command.action) != AnalyzeKind ==> step.context == context)
            && (KindOf(command.action) == AnalyzeKind && step.response.Failure? ==> step.context == context)
            && (KindOf(command.action) == AnalyzeKind && step.response.Success? ==>
                  result.Success? && step.context == Merged(context, map[LastAnalysis := result.value]))
  {
  }

  /** Only `favorite` changes the favourites. */
  lemma OnlyFavoriteChangesFavorites(input: string, command: Command, items: map<string, Value>,
                                     context: map<string, Value>, favorites: seq<Favorite>, net: Network, stamps: Stamps)
    ensures Dispatch(input, command, items, context, favorites, net, stamps).favorites != favorites
            <==> KindOf(command.action) == FavoriteKind
  {
  }

  /**
   * A dispatched command sends no request exactly for `help`, `favorite`, an
   * unknown action, and a query or analysis stopped by the credential guard.
   */
  lemma NetworkBranches(input: string, command: Command, items: map<string, Value>,
                        context: map<string, Value>, favorites: seq<Favorite>, net: Network, stamps: Stamps)
    ensures var k := KindOf(command.action);
            Dispatch(input, command, items, context, favorites, net, stamps).calls == []
            <==> k in {HelpKind, FavoriteKind, UnknownKind}
                 || (k in {QueryKind, AnalyzeKind} && !HasCrmCredentials(items))
  {
  }

  /** A response is generated only for a query or analysis whose query succeeded. */
  lemma GenerationFollowsQuery(input: string, command: Command, items: map<string, Value>,
                               context: map<string, Value>, favorites: seq<Favorite>, net: Network, stamps: Stamps)
    ensures GenerateCall in Dispatch(input, command, items, context, favorites, net, stamps).calls
            <==> KindOf(command.action) in {QueryKind, AnalyzeKind} && QueryOutcome(items, command.query, net).Success?
  {
  }

  /** Every successful answer, hence every assistant message the pipeline adds, is non-empty. */
  lemma ResponseNonEmpty(input: string, items: map<string, Value>, context: map<string, Value>,
                         favorites: seq<Favorite>, net: Network, stamps: Stamps)
    ensures var step := Turn(input, items, context, favorites, net, stamps);
            step.response.Success? ==> step.response.value != ""
  {
  }

  /**
   * A query for open opportunities by stage, answered by the CRM with one
   * record: the model's text is the answer, after one request to each service.
   */
  lemma OpportunitiesByStageScenario(items: map<string, Value>, context: map<string, Value>,
                                     favorites: seq<Favorite>, stamps: Stamps, answer: string)
    requires HasCrmCredentials(items) && answer != ""
    ensures
      var input := "Show me open opportunities by stage";
      var soql := "SELECT StageName, COUNT(Id) total FROM Opportunity WHERE IsClosed = false GROUP BY StageName";
      var records := Obj(map["records" := Arr([Obj(map["StageName" := Str("Prospecting"), "total" := Num(5)])])]);
      var net := Network(
        (text: string) => Success(Parsed(Command(Some("query"), Parameters("", "", Null, Null, ""), soql))),
        (q: string) => if q == soql then QueryOk(records) else QueryFailed(Thrown("unexpected query"), NoBody),
        (objectName: string, recordId: string, fields: Value) => Fail(Thrown("unexpected update")),
        (objectName: string, fields: Value) => Failure(Thrown("unexpected create")),
        Failure(Thrown("unexpected catalogue request")),
        (text: string, result: Value, ctx: map<string, Value>) =>
          if result == records then Success(Some(answer)) else Success(None));
      Turn(input, items, context, favorites, net, stamps)
        == Step(Success(answer), [ClassifyCall(input), CrmQuery(soql), GenerateCall], context, favorites)
  {
  }

  /** `initializeAPIs`: a client is created once, from a stored truthy key. */
  function InitializedClient(client: Option<Value>, items: map<string, Value>): (r: Option<Value>)
    ensures client.Some? ==> r == client
    ensures client.None? ==> (r.Some? <==> TruthyAt(items, OpenAIKey))
    ensures r.Some? && client.None? ==> r.value == items[OpenAIKey]
  {
    if client.None? && TruthyAt(items, OpenAIKey) then Some(items[OpenAIKey]) else client
  }

  /** Once a client exists, later initialisations keep it, whatever storage then holds. */
  lemma ClientCreatedOnce(client: Option<Value>, before: map<string, Value>, after: map<string, Value>)
    requires InitializedClient(client, before).Some?
    ensures InitializedClient(InitializedClient(client, before), after) == InitializedClient(client, before)
  {
  }

  /** The module-level model client of the pipeline. */
  class Processor {
    var openai: Option<Value>

    constructor ()
      ensures openai == None
    {
      openai := None;
    }

    /** `initializeAPIs` */
    method InitializeAPIs(storage: LocalStorage)
      modifies this
      ensures openai == InitializedClient(old(openai), storage.items)
    {
      var got := GetFromStorage(storage, [OpenAIKey]);
      if openai.None? && TruthyAt(got, OpenAIKey) {
        openai := Some(got[OpenAIKey]);
      }
    }

    /**
     * `processUserInput`: initialises the client, classifies `input`, runs its
     * action and, on success, appends the response as one assistant message.
     */
    method ProcessUserInput(storage: LocalStorage, store: ChatState, input: string, net: Network, stamps: Stamps)
      returns (r: Result<string, Error>, calls: seq<Call>)
      modifies this, store
      ensures openai == InitializedClient(old(openai), storage.items)
      ensures openai.None? ==>
                r == Failure(NotInitialized) && calls == []
                && store.messages == old(store.messages) && store.favorites == old(store.favorites)
                && store.context == old(store.context)
      ensures openai.Some? ==>
                var step := Turn(input, storage.items, old(store.context), old(store.favorites), net, stamps);
                r == step.response && calls == step.calls
                && store.context == step.context && store.favorites == step.favorites
      ensures store.messages == old(store.messages)
                + (if r.Success? then [ChatMessage(stamps.messageId, Assistant, r.value, stamps.messageTime)] else [])
    {
      InitializeAPIs(storage);
      if openai.None? {
        return Failure(NotInitialized), [];
      }
      calls := [ClassifyCall(input)];
      var command := ParseCommand(net.classify(input));
      if command.Failure? {
        return Failure(command.error), calls;
      }
      var p := command.value.parameters;
      var response: string;
      match KindOf(command.value.action) {
        case QueryKind =>
          var queryResult, queried := ExecuteSOQL(storage, command.value.query, net);
          calls := calls + queried;
          if queryResult.Failure? {
            return Failure(queryResult.error), calls;
          }
          calls := calls + [GenerateCall];
          var generated := GenerateResponse(net, input, queryResult.value, store.context);
          if generated.Failure? {
            return Failure(generated.error), calls;
          }
          response := generated.value;
        case UpdateKind =>
          calls := calls + [CrmUpdate(p.objectName, p.recordId)];
          var updated := net.update(p.objectName, p.recordId, p.fields);
          if updated.Fail? {
            return Failure(updated.error), calls;
          }
          response := UpdatedText(p.objectName);
        case CreateKind =>
          calls := calls + [CrmCreate(p.objectName)];
          var newRecordId := net.create(p.objectName, p.fields);
          if newRecordId.Failure? {
            return Failure(newRecordId.error), calls;
          }
          response := CreatedText(p.objectName, newRecordId.value);
        case AnalyzeKind =>
          var analysisResult, queried := ExecuteSOQL(storage, command.value.query, net);
          calls := calls + queried;
          if analysisResult.Failure? {
            return Failure(analysisResult.error), calls;
          }
          calls := calls + [GenerateCall];
          var generated := GenerateResponse(net, input, analysisResult.value, store.context);
          if generated.Failure? {
            return Failure(generated.error), calls;
          }
          response := generated.value;
          store.UpdateContext(map[LastAnalysis := analysisResult.value]);
        case TaskKind =>
          calls := calls + [CrmCreate("Task")];
          var taskId := net.create("Task", p.taskFields);
          if taskId.Failure? {
            return Failure(taskId.error), calls;
          }
          response := TaskCreatedText(taskId.value);
        case FavoriteKind =>
          store.AddFavorite(input, p.description, stamps.favoriteId, stamps.favoriteTime);
          response := FavoriteSaved;
        case HelpKind =>
          response := HelpText;
        case UnknownKind =>
          return Failure(UnknownCommand), calls;
      }
      store.AddMessage(Assistant, response, stamps.messageId, stamps.messageTime);
      return Success(response), calls;
    }
  }
}
