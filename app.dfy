/**
 * The top-level screen of the frontend: it owns the transcript and the
 * loading flag, and turns the control panel's requests into calls to the
 * backend. The outcome of each call is a parameter; what the screen sends
 * and the alerts it raises are recorded as effects.
 */
module SessionApp {
  import opened Wrappers
  import opened Http
  import opened BaseService
  import ControlPanel

  /** The body of a request to the backend. */
  datatype Body =
    | ConversationBody(topic: string, maxTurns: int, maxTokens: int, roles: seq<string>)
    | TestRoleBody(role: string, question: string, maxTokens: int)

  /** A request sent, with the value of the loading flag while it is pending, or an alert. */
  datatype Effect = Posted(url: string, body: Body, loading: bool) | Alert(text: string)

  const ConversationUrl: string := ServerUrl + "/api/conversation"
  const TestRoleUrl: string := ServerUrl + "/api/test-role"
  /** The token budget every single-role test asks for. */
  const TestRoleMaxTokens: int := 500
  const StartFailed: string := "Failed to start conversation. Please try again."
  const TestFailed: string := "Failed to test role. Please try again."

  /** The static roster handed to the control panel. */
  function Roster(): seq<ControlPanel.Role> {
    [ControlPanel.Role("Business Analyst", "Analyzes business implications and ROI", "gemini-pro", 0.7, 500),
     ControlPanel.Role("Customer Advocate", "Focuses on user experience and customer needs", "gemini-pro", 0.7, 500),
     ControlPanel.Role("Technical Architect", "Provides technical insights and implementation details", "gemini-pro", 0.7, 500)]
  }

  /** The roster names are distinct, so the panel's initial active list has no repeats. */
  lemma RosterNamesDistinct()
    ensures forall i, j :: 0 <= i < j < |Roster()| ==> Roster()[i].name != Roster()[j].name
  {
  }

  /**
   * The control panel as the screen renders it, given the roster: every
   * roster name active, in roster order, with no repeats, so every later
   * toggle keeps it free of repeats too.
   */
  method OpenControlPanel() returns (panel: ControlPanel.ConversationControlPanel)
    ensures panel.activeRoles == ["Business Analyst", "Customer Advocate", "Technical Architect"]
    ensures ControlPanel.NoDuplicates(panel.activeRoles)
    ensures panel.testRole == "Business Analyst"
  {
    panel := new ControlPanel.ConversationControlPanel(Roster());
    RosterNamesDistinct();
  }

  /** The screen's state (`useState`) and the effects it has produced so far. */
  class App {
    var messages: seq<Message>
    var isLoading: bool
    var effects: seq<Effect>

    constructor ()
      ensures messages == [] && !isLoading && effects == []
    {
      messages := [];
      isLoading := false;
      effects := [];
    }

    /**
     * Start a conversation. The request carries the panel's settings under
     * the backend's names and is sent while loading is shown. An ok reply
     * whose body parses replaces the transcript with the returned messages;
     * anything else leaves the transcript as it was and raises one alert.
     * Loading is off again on every path.
     */
    method HandleStartConversation(settings: ControlPanel.ConversationSettings, reply: Reply<seq<Message>>)
      modifies this
      ensures !isLoading
      ensures var body := ConversationBody(settings.topic, settings.maxTurns, settings.maxTokens, settings.activeRoles);
        effects == old(effects) + [Posted(ConversationUrl, body, true)]
                   + (if Succeeded(reply) then [] else [Alert(StartFailed)])
      ensures messages == if Succeeded(reply) then reply.json.value else old(messages)
    {
      isLoading := true;
      var body := ConversationBody(settings.topic, settings.maxTurns, settings.maxTokens, settings.activeRoles);
      effects := effects + [Posted(ConversationUrl, body, isLoading)];
      match reply {
        case NetworkFailure(_) =>
          effects := effects + [Alert(StartFailed)];
        case Response(ok, json) =>
          if !ok {
            effects := effects + [Alert(StartFailed)];
          } else {
            match json {
              case Unparseable(_) =>
                effects := effects + [Alert(StartFailed)];
              case Parsed(data) =>
                messages := data;
            }
          }
      }
      isLoading := false;
    }

    /**
     * Test one role. The request always asks for `TestRoleMaxTokens`. A
     * reply carrying a message replaces the transcript with exactly the
     * question and the answer; anything else (including a body without a
     * `message`, whose `content` cannot be read) leaves the transcript as it
     * was and raises one alert. Loading is off again on every path.
     */
    method HandleTestRole(role: string, question: string, reply: Reply<Option<string>>)
      modifies this
      ensures !isLoading
      ensures var answered := Succeeded(reply) && reply.json.value.Some?;
        && effects == old(effects) + [Posted(TestRoleUrl, TestRoleBody(role, question, TestRoleMaxTokens), true)]
                      + (if answered then [] else [Alert(TestFailed)])
        && messages == if answered then [Message("user", question), Message("model", reply.json.value.value)]
                       else old(messages)
    {
      isLoading := true;
      effects := effects + [Posted(TestRoleUrl, TestRoleBody(role, question, TestRoleMaxTokens), isLoading)];
      if reply.NetworkFailure? || !reply.ok || reply.json.Unparseable? || reply.json.value.None? {
        effects := effects + [Alert(TestFailed)];
      } else {
        messages := [Message("user", question), Message("model", reply.json.value.value)];
      }
      isLoading := false;
    }
  }
}
