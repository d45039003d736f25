/** The assistant persona and the initial prompt assembled from it. */
module Assistant {
  import opened Text

  /** A persona: who the assistant is, where it works, and what it is asked to do. */
  datatype Persona = Persona(
    name: string,
    motivation: string,
    role: string,
    environment: string,
    emotions: seq<string>,
    personalities: seq<string>,
    tasks: seq<string>)

  /** Each task as a bullet line `- task`, in the original order. */
  function TaskLines(tasks: seq<string>): (ls: seq<string>)
    ensures |ls| == |tasks|
    ensures forall i :: 0 <= i < |tasks| ==> ls[i] == "- " + tasks[i]
  {
    if |tasks| == 0 then [] else ["- " + tasks[0]] + TaskLines(tasks[1..])
  }

  /** The bullet lines joined with newlines; no tasks give the empty text. */
  function TasksText(tasks: seq<string>): string {
    Join(TaskLines(tasks), "\n")
  }

  /** The opening sentence: name, role and motivation. */
  function Opening(p: Persona): string {
    "You are " + p.name + ", a " + p.role + " who is motivated to " + p.motivation + ". "
  }

  /** The sentence naming the working environment. */
  function EnvironmentSentence(p: Persona): string {
    "You will be working in " + p.environment + ". "
  }

  /** The personalities, comma-joined in their original order. */
  function PersonalitiesSentence(p: Persona): string {
    "Here are the main personalities that define you: " + Join(p.personalities, ", ") + ". "
  }

  /** The emotions, comma-joined in their original order. */
  function EmotionsSentence(p: Persona): string {
    "Here are your guiding emotions: " + Join(p.emotions, ", ") + ". "
  }

  /** The line that introduces the task list. */
  const TasksIntro := "You are asked by the user to do the following tasks:\n"

  /** The closing section: the task list between `<tasks>` tags. */
  function TasksSection(p: Persona): string {
    "<tasks>\n" + TasksText(p.tasks) + "</tasks> "
  }

  /** `generate_initial_prompt`: the opening sentence, the environment, the
      comma-joined personalities and emotions, then the tagged task list. */
  function InitialPrompt(p: Persona): (r: string)
    ensures r == Opening(p) + EnvironmentSentence(p) + PersonalitiesSentence(p)
                 + EmotionsSentence(p) + TasksIntro + TasksSection(p)
    ensures |Opening(p)| <= |r| && r[..|Opening(p)|] == Opening(p)
    ensures |TasksSection(p)| <= |r| && r[|r| - |TasksSection(p)|..] == TasksSection(p)
  {
    var sentences := Opening(p) + EnvironmentSentence(p) + PersonalitiesSentence(p) + EmotionsSentence(p);
    var r := sentences + TasksIntro + TasksSection(p);
    assert r == Opening(p) + (EnvironmentSentence(p) + PersonalitiesSentence(p) + EmotionsSentence(p)
                              + TasksIntro + TasksSection(p));
    r
  }

  /** A personality added at the end of the list appears after the others,
      separated by a comma, and the rest of the prompt is unchanged. */
  lemma PersonalityAppended(p: Persona, personality: string)
    requires |p.personalities| >= 1
    ensures PersonalitiesSentence(p.(personalities := p.personalities + [personality]))
         == "Here are the main personalities that define you: " + Join(p.personalities, ", ") + ", " + personality + ". "
    ensures Opening(p.(personalities := p.personalities + [personality])) == Opening(p)
    ensures EmotionsSentence(p.(personalities := p.personalities + [personality])) == EmotionsSentence(p)
    ensures TasksSection(p.(personalities := p.personalities + [personality])) == TasksSection(p)
  {
    JoinAppend(p.personalities, personality, ", ");
  }

  /** An emotion added at the end of the list appears after the others,
      separated by a comma. */
  lemma EmotionAppended(p: Persona, emotion: string)
    requires |p.emotions| >= 1
    ensures EmotionsSentence(p.(emotions := p.emotions + [emotion]))
         == "Here are your guiding emotions: " + Join(p.emotions, ", ") + ", " + emotion + ". "
  {
    JoinAppend(p.emotions, emotion, ", ");
  }

  /** With no tasks the prompt ends with an empty tag pair. */
  lemma NoTasks(p: Persona)
    requires p.tasks == []
    ensures var r := InitialPrompt(p);
            |r| >= 17 && r[|r| - 17..] == "<tasks>\n</tasks> "
  {
    assert TasksText(p.tasks) == "";
    assert TasksSection(p) == "<tasks>\n</tasks> ";
  }

  /** Adding a task adds exactly one bullet line at the end of the task list. */
  lemma TaskAppended(tasks: seq<string>, task: string)
    requires |tasks| >= 1
    ensures TasksText(tasks + [task]) == TasksText(tasks) + "\n- " + task
  {
    assert TaskLines(tasks + [task]) == TaskLines(tasks) + ["- " + task];
    JoinAppend(TaskLines(tasks), "- " + task, "\n");
  }

  /** The task list reads back line by line: when no task contains a newline,
      splitting the task text on newlines gives one `- task` line per task. */
  lemma TaskLinesRecoverable(tasks: seq<string>)
    requires |tasks| >= 1
    requires forall i :: 0 <= i < |tasks| ==> '\n' !in tasks[i]
    ensures Split(TasksText(tasks), '\n') == TaskLines(tasks)
    ensures forall i :: 0 <= i < |tasks| ==> Split(TasksText(tasks), '\n')[i][2..] == tasks[i]
  {
    var ls := TaskLines(tasks);
    forall i | 0 <= i < |tasks|
      ensures '\n' !in ls[i]
    {
      assert ls[i] == "- " + tasks[i];
    }
    SplitJoin(ls, '\n');
    forall i | 0 <= i < |tasks|
      ensures ls[i][2..] == tasks[i]
    {
      assert ls[i] == "- " + tasks[i];
    }
  }
}
