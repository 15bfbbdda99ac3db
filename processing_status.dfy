/** The processing panel shown while an interview is analysed: one row per
    pipeline step with a status icon and colour, a badge naming the AI
    service the step used (guessed from its message, then from its name),
    the number of calls a cached step saved, and the count of completed
    steps. */
module ProcessingStatus {
  import opened Common

  /** `ProcessingStep['status']`. */
  datatype Status = Pending | Processing | Complete | Error

  /** A pipeline step (`ProcessingStep`); `duration` is in milliseconds. */
  datatype Step = Step(name: string, status: Status, message: string, duration: Option<real>)

  // ---------------------------------------------------------------------------
  // The "saved N" capture
  // ---------------------------------------------------------------------------

  predicate IsDigit(c: char) {
    '0' <= c <= '9'
  }

  const SavedWord: string := "saved "

  /** `/saved (\d+)/` matches at position `i`. */
  predicate SavedAt(msg: string, i: nat) {
    i + |SavedWord| < |msg| && msg[i..i + |SavedWord|] == SavedWord && IsDigit(msg[i + |SavedWord|])
  }

  /** `\d+` taken greedily: the longest run of digits `s` starts with. */
  function DigitRun(s: string): (r: string)
    ensures r <= s
    ensures forall k :: 0 <= k < |r| ==> IsDigit(r[k])
    ensures |r| < |s| ==> !IsDigit(s[|r|])
  {
    if s != [] && IsDigit(s[0]) then [s[0]] + DigitRun(s[1..]) else []
  }

  /** The leftmost position at or after `from` where the pattern matches. */
  function SavedPosition(msg: string, from: nat): (p: Option<nat>)
    requires from <= |msg|
    ensures p.Some? ==> from <= p.value && SavedAt(msg, p.value)
    ensures p.Some? ==> forall j :: from <= j < p.value ==> !SavedAt(msg, j)
    ensures p.None? ==> forall j :: from <= j ==> !SavedAt(msg, j)
    decreases |msg| - from
  {
    if SavedAt(msg, from) then Some(from)
    else if from == |msg| then None
    else SavedPosition(msg, from + 1)
  }

  /** `msg.match(/saved (\d+)/)?.[1] || undefined`: the digits after the
      first "saved " that is followed by a digit; none when there is no
      such place. The capture is never empty. */
  function SavedCalls(msg: string): (r: Option<string>)
    ensures r.None? <==> forall i :: !SavedAt(msg, i)
    ensures r.Some? ==> r.value != [] && forall k :: 0 <= k < |r.value| ==> IsDigit(r.value[k])
    ensures r.Some? ==> exists i: nat :: SavedAt(msg, i) && (forall j :: 0 <= j < i ==> !SavedAt(msg, j)) &&
                                    r.value == DigitRun(msg[i + |SavedWord|..])
  {
    match SavedPosition(msg, 0)
    case None => None
    case Some(i) =>
      assert SavedAt(msg, i) && (forall j :: 0 <= j < i ==> !SavedAt(msg, j));
      Some(DigitRun(msg[i + |SavedWord|..]))
  }

  /** The capture on concrete messages: the whole number after "saved ",
      and nothing when "saved" is not followed by a space and a digit. */
  lemma SavedCallsExamples()
    ensures SavedCalls("saved 42 calls") == Some("42")
    ensures SavedCalls("saved calls") == None
  {
    var m := "saved 42 calls";
    assert SavedAt(m, 0);
    assert DigitRun(m[6..]) == "42" by {
      assert m[6..] == "42 calls";
      assert DigitRun("2 calls") == "2" + DigitRun(" calls");
    }
    var e := "saved calls";
    forall i: nat
      ensures !SavedAt(e, i)
    {
      if i + |SavedWord| < |e| && e[i..i + |SavedWord|] == SavedWord {
        assert e[i] == 's' && e[i + 5] == ' ';
      }
    }
  }

  // ---------------------------------------------------------------------------
  // Service classification
  // ---------------------------------------------------------------------------

  datatype Service = Gemini | OpenAI

  /** The badge `getAIService` describes; `savings` only for Gemini. */
  datatype ServiceBadge = ServiceBadge(service: Option<Service>, savings: Option<string>)

  predicate MessageSaysGemini(msg: string) {
    Contains(msg, "gemini") || Contains(msg, "saved") || Contains(msg, "no openai")
  }

  predicate NameSaysGemini(stepName: string) {
    Contains(stepName, "transcription") || Contains(stepName, "sentiment") ||
    Contains(stepName, "jd relevance") || Contains(stepName, "flow") ||
    Contains(stepName, "pii") || Contains(stepName, "explainability")
  }

  /** `getAIService`, on the lower-cased message and name: the message is
      consulted first (a Gemini mention, "saved" or "no openai" wins over
      everything, then "openai"), and only then the step name. */
  function ClassifyService(message: string, name: string): (b: ServiceBadge)
    ensures MessageSaysGemini(Lower(message)) ==>
              b == ServiceBadge(Some(Gemini), SavedCalls(Lower(message)))
    ensures !MessageSaysGemini(Lower(message)) && Contains(Lower(message), "openai") ==>
              b == ServiceBadge(Some(OpenAI), None)
    ensures !MessageSaysGemini(Lower(message)) && !Contains(Lower(message), "openai") ==>
              b.savings == None &&
              (b.service == Some(Gemini) <==> NameSaysGemini(Lower(name))) &&
              (b.service == Some(OpenAI) <==> !NameSaysGemini(Lower(name)) && Contains(Lower(name), "embedding"))
  {
    var msg := Lower(message);
    var stepName := Lower(name);
    if Contains(msg, "gemini") || Contains(msg, "saved") || Contains(msg, "no openai") then
      ServiceBadge(Some(Gemini), SavedCalls(msg))
    else if Contains(msg, "openai") && !Contains(msg, "no openai") then
      ServiceBadge(Some(OpenAI), None)
    else if NameSaysGemini(stepName) then
      ServiceBadge(Some(Gemini), None)
    else if Contains(stepName, "embedding") then
      ServiceBadge(Some(OpenAI), None)
    else
      ServiceBadge(None, None)
  }

  /** A count of saved calls always comes with the Gemini badge, and a
      message that mentions a count of saved calls is Gemini whatever the
      step is called. */
  lemma SavingsImplyGemini(message: string, name: string)
    ensures ClassifyService(message, name).savings.Some? ==> ClassifyService(message, name).service == Some(Gemini)
    ensures SavedCalls(Lower(message)).Some? ==> ClassifyService(message, name).service == Some(Gemini)
  {
    var msg := Lower(message);
    if SavedCalls(msg).Some? {
      assert SavedPosition(msg, 0).Some?;
      var i := SavedPosition(msg, 0).value;
      assert msg[i..][..5] == msg[i..i + |SavedWord|][..5] == "saved";
    }
  }

  // ---------------------------------------------------------------------------
  // Status lookups and the count
  // ---------------------------------------------------------------------------

  datatype Icon = CheckCircle | Spinner | AlertCircle | HollowCircle

  /** `getStatusIcon`: the `default` arm is the pending style. */
  function StatusIcon(status: Status): (icon: Icon)
    ensures icon == HollowCircle <==> status == Pending
  {
    match status
    case Complete => CheckCircle
    case Processing => Spinner
    case Error => AlertCircle
    case Pending => HollowCircle
  }

  /** `getStatusColor`. */
  function StatusColor(status: Status): (color: string)
    ensures color == "text-muted-foreground" <==> status == Pending
  {
    match status
    case Complete => "text-chart-2"
    case Processing => "text-primary"
    case Error => "text-destructive"
    case Pending => "text-muted-foreground"
  }

  /** Icon and colour pick the same style: either determines the status. */
  lemma IconAndColorAgree(a: Status, b: Status)
    ensures StatusIcon(a) == StatusIcon(b) <==> a == b
    ensures StatusColor(a) == StatusColor(b) <==> a == b
  {
  }

  /** `steps.filter(s => s.status === 'complete').length`. */
  function CountComplete(steps: seq<Step>): (n: nat)
    ensures n <= |steps|
    ensures n == |steps| <==> forall i :: 0 <= i < |steps| ==> steps[i].status == Complete
    ensures n == 0 <==> forall i :: 0 <= i < |steps| ==> steps[i].status != Complete
  {
    if steps == [] then 0
    else (if steps[0].status == Complete then 1 else 0) + CountComplete(steps[1..])
  }

  /** The count of a list is the sum of the counts of its parts. */
  lemma {:induction false} CountCompleteAppend(a: seq<Step>, b: seq<Step>)
    ensures CountComplete(a + b) == CountComplete(a) + CountComplete(b)
    decreases |a|
  {
    if a == [] {
      assert a + b == b;
    } else {
      assert (a + b)[1..] == a[1..] + b;
      CountCompleteAppend(a[1..], b);
    }
  }

  /** Marking one more step complete adds exactly one to the count. */
  lemma CompletingAStepCountsIt(steps: seq<Step>, i: nat)
    requires i < |steps| && steps[i].status != Complete
    ensures CountComplete(steps[i := steps[i].(status := Complete)]) == CountComplete(steps) + 1
  {
    var t := steps[i := steps[i].(status := Complete)];
    assert steps == steps[..i] + [steps[i]] + steps[i + 1..];
    assert t == steps[..i] + [t[i]] + steps[i + 1..];
    CountCompleteAppend(steps[..i] + [steps[i]], steps[i + 1..]);
    CountCompleteAppend(steps[..i], [steps[i]]);
    CountCompleteAppend(steps[..i] + [t[i]], steps[i + 1..]);
    CountCompleteAppend(steps[..i], [t[i]]);
  }

  // ---------------------------------------------------------------------------
  // The panel
  // ---------------------------------------------------------------------------

  /** A step's row: the badge is shown when a service was found, the saved
      calls only once the step is complete, the duration likewise. */
  datatype StepRow = StepRow(
    name: string,
    message: string,
    icon: Icon,
    color: string,
    badge: Option<ServiceBadge>,
    savingsShown: Option<string>,
    durationShown: Option<real>)

  function RenderStep(step: Step): (row: StepRow)
    ensures row.name == step.name && row.message == step.message
    ensures row.icon == StatusIcon(step.status) && row.color == StatusColor(step.status)
    ensures row.badge.Some? ==> row.badge.value == ClassifyService(step.message, step.name)
    ensures row.badge.Some? <==> ClassifyService(step.message, step.name).service.Some?
    ensures row.savingsShown.Some? <==>
              step.status == Complete && ClassifyService(step.message, step.name).savings.Some?
    ensures row.savingsShown.Some? ==> row.savingsShown == SavedCalls(Lower(step.message))
    ensures row.durationShown.Some? <==> step.status == Complete && step.duration.Some?
    ensures row.durationShown.Some? ==> row.durationShown == step.duration
  {
    var b := ClassifyService(step.message, step.name);
    StepRow(
      step.name, step.message, StatusIcon(step.status), StatusColor(step.status),
      if b.service.Some? then Some(b) else None,
      if b.service.Some? && b.savings.Some? && step.status == Complete then b.savings else None,
      if step.duration.Some? && step.status == Complete then step.duration else None)
  }

  datatype Panel = Panel(completed: nat, total: nat, rows: seq<StepRow>)

  /** The component: nothing when hidden or when there are no steps;
      otherwise "completed / total" and one row per step, in order. */
  function Render(steps: seq<Step>, isVisible: bool): (p: Option<Panel>)
    ensures p.None? <==> !isVisible || steps == []
    ensures p.Some? ==> p.value.total == |steps| && p.value.completed == CountComplete(steps)
    ensures p.Some? ==> 0 <= p.value.completed <= p.value.total
    ensures p.Some? ==> |p.value.rows| == |steps|
    ensures p.Some? ==> forall i :: 0 <= i < |steps| ==> p.value.rows[i] == RenderStep(steps[i])
  {
    if !isVisible || |steps| == 0 then None
    else Some(Panel(CountComplete(steps), |steps|,
                    seq(|steps|, i requires 0 <= i < |steps| => RenderStep(steps[i]))))
  }
}
