/**
 * The conversation controller of the photo-filing bot as pure functions:
 * the three handlers (photo, button press, /cancel), the ledger
 * initialisation, and the conversation framework's routing of an update to
 * a handler. The class in module Bot updates its fields in place and is
 * proved to follow these functions.
 */
module Controller {
  import opened Options
  import opened Naming

  /** A Telegram file handle; downloading it is the only use the bot makes of it. */
  datatype PhotoHandle = PhotoHandle(fileId: string)

  /** The sender of a message. */
  datatype User = User(id: int, username: Option<string>)

  /** A message; `photo` lists the sizes of an attached photo, largest last (empty: no photo). */
  datatype Message = Message(from: User, photo: seq<PhotoHandle>)

  /** The pending submission kept in the user's conversation data. */
  datatype Submission = Submission(file: PhotoHandle, nombre: string, fecha: string)

  /** Conversation states: no conversation, or waiting for the location button. */
  datatype ConvState = End | AskPrincipal

  /** The text the bot sends back. */
  datatype Reply =
    | ChooseLocation                                        // the 3x2 keyboard of codes
    | InvalidOption                                         // "not a valid option, try again"
    | PhotoNotFound                                         // "cannot find the photo, send it again"
    | Saved(folder: string, nombre: string, fecha: string)  // "saved", with folder, name and time
    | Cancelled                                             // "operation cancelled"

  /**
   * Everything a handler reads or changes: the save root, the ledger (None
   * while its file does not exist; otherwise the chunks written to it, in
   * order), the photo files by path, the folders, and the user's pending
   * submission.
   */
  datatype World = World(root: string, ledger: Option<seq<string>>, files: map<string, PhotoHandle>,
                         dirs: set<string>, pending: Option<Submission>)
  {
    /** The ledger's chunks; an absent ledger reads as empty. */
    function Lines(): seq<string>
    {
      ledger.GetOr([])
    }
  }

  /**
   * What a handler hands back: the world after it, the state it returns to
   * the conversation framework (None: keep the current state) and its reply
   * (None: it sends nothing).
   */
  datatype HandlerResult = HandlerResult(world: World, next: Option<ConvState>, reply: Option<Reply>)

  /** True when the world differs from `w` at most in the pending submission. */
  predicate StoreUnchanged(w: World, w': World)
  {
    w'.root == w.root && w'.ledger == w.ledger && w'.files == w.files && w'.dirs == w.dirs
  }

  // ---------------------------------------------------------------------
  // Ledger initialisation

  /** The ledger after initialisation: a fresh ledger holds just the header; an existing one is kept as it is. */
  function EnsureCsv(ledger: Option<seq<string>>): (r: Option<seq<string>>)
    ensures r.Some?
    ensures ledger.None? ==> r.value == [CsvHeader]
    ensures ledger.Some? ==> r == ledger
  {
    if ledger.None? then Some([CsvHeader]) else ledger
  }

  /** Initialising twice is initialising once. */
  lemma EnsureCsvIdempotent(ledger: Option<seq<string>>)
    ensures EnsureCsv(EnsureCsv(ledger)) == EnsureCsv(ledger)
  {
  }

  /** Process start: the save root is created, the ledger initialised, no submission is pending. */
  function Startup(root: string, ledger: Option<seq<string>>, files: map<string, PhotoHandle>,
                   dirs: set<string>): (w: World)
    ensures w.root == root && root in w.dirs && dirs <= w.dirs && w.files == files
    ensures w.ledger == EnsureCsv(ledger) && w.pending.None?
  {
    World(root, EnsureCsv(ledger), files, dirs + {root}, None)
  }

  // ---------------------------------------------------------------------
  // Handlers

  /** The submission a photo message creates, stamped with the time `fecha`. */
  function NewSubmission(m: Message, fecha: string): (s: Submission)
    requires m.photo != []
    ensures s.file == m.photo[|m.photo| - 1] && s.fecha == fecha
    ensures s.nombre == FileName(m.from.username, m.from.id, fecha)
  {
    Submission(m.photo[|m.photo| - 1], FileName(m.from.username, m.from.id, fecha), fecha)
  }

  /**
   * A photo: its largest size becomes the pending submission, replacing any
   * earlier one, and the conversation moves on to the location question.
   * Nothing is written. An update without a photo changes nothing.
   */
  function OnPhoto(w: World, msg: Option<Message>, fecha: string): (r: HandlerResult)
    ensures StoreUnchanged(w, r.world)
    ensures msg.None? || msg.value.photo == [] ==> r == HandlerResult(w, None, None)
    ensures msg.Some? && msg.value.photo != [] ==>
              && r.world.pending == Some(NewSubmission(msg.value, fecha))
              && r.next == Some(AskPrincipal) && r.reply == Some(ChooseLocation)
  {
    if msg.None? || msg.value.photo == [] then HandlerResult(w, None, None)
    else
      var w' := w.(pending := Some(NewSubmission(msg.value, fecha)));
      HandlerResult(w', Some(AskPrincipal), Some(ChooseLocation))
  }

  /** The world after filing submission `p` under location `code`. */
  function Commit(w: World, p: Submission, code: string): (w': World)
    ensures w'.root == w.root && w'.pending.None?
    ensures w'.files == w.files[DestPath(w.root, code, p.nombre) := p.file]
    ensures w'.dirs == w.dirs + {SubDir(w.root, code)}
    ensures w'.ledger == Some(w.Lines() + [LedgerLine(p.nombre, FrenteFromCodigo(code), code, p.fecha)])
  {
    var subdir := SubDir(w.root, code);
    World(w.root,
          Some(w.Lines() + [LedgerLine(p.nombre, FrenteFromCodigo(code), code, p.fecha)]),
          w.files[Join(subdir, p.nombre) := p.file],
          w.dirs + {subdir},
          None)
  }

  /**
   * A button press. The code is checked first: an unknown code (or a
   * callback without data) changes nothing and keeps asking. Then a known
   * code with nothing pending ends the conversation, writing nothing.
   * Otherwise the photo is filed under `<root>/<code>/<nombre>`, exactly one
   * row is appended to the ledger, the user data is cleared and the
   * conversation ends.
   */
  function ChoosePrincipal(w: World, data: Option<string>): (r: HandlerResult)
    ensures r.next.Some? && r.reply.Some?
    ensures data.None? || data.value !in PrincipalChoices ==>
              r == HandlerResult(w, Some(AskPrincipal), Some(InvalidOption))
    ensures data.Some? && data.value in PrincipalChoices && w.pending.None? ==>
              r == HandlerResult(w, Some(End), Some(PhotoNotFound))
    ensures data.Some? && data.value in PrincipalChoices && w.pending.Some? ==>
              && r.world == Commit(w, w.pending.value, data.value)
              && r.next == Some(End)
              && r.reply == Some(Saved(SubDir(w.root, data.value), w.pending.value.nombre, w.pending.value.fecha))
  {
    if data.None? || data.value !in PrincipalChoices then
      HandlerResult(w, Some(AskPrincipal), Some(InvalidOption))
    else if w.pending.None? then
      HandlerResult(w, Some(End), Some(PhotoNotFound))
    else
      var p := w.pending.value;
      HandlerResult(Commit(w, p, data.value), Some(End), Some(Saved(SubDir(w.root, data.value), p.nombre, p.fecha)))
  }

  /** /cancel: the user data is cleared and the conversation ends; no file or ledger row is touched. */
  function Cancel(w: World): (r: HandlerResult)
    ensures StoreUnchanged(w, r.world) && r.world.pending.None?
    ensures r.next == Some(End) && r.reply == Some(Cancelled)
  {
    HandlerResult(w.(pending := None), Some(End), Some(Cancelled))
  }

  // ---------------------------------------------------------------------
  // Properties of a successful commit

  /**
   * A successful commit adds exactly one ledger row, the one describing the
   * submission, after all earlier chunks, and stores the photo at its
   * destination; every other file keeps its content.
   */
  lemma CommitAppendsOneRow(w: World, code: string)
    requires code in PrincipalChoices && w.pending.Some?
    ensures var w' := ChoosePrincipal(w, Some(code)).world;
            var p := w.pending.value;
            && |w'.Lines()| == |w.Lines()| + 1
            && w'.Lines()[..|w.Lines()|] == w.Lines()
            && w'.Lines()[|w.Lines()|] == LedgerLine(p.nombre, FrenteFromCodigo(code), code, p.fecha)
            && FrenteFromCodigo(code) in Groups
            && DestPath(w.root, code, p.nombre) in w'.files
            && w'.files[DestPath(w.root, code, p.nombre)] == p.file
            && SubDir(w.root, code) in w'.dirs
            && (forall f :: f in w.files && f != DestPath(w.root, code, p.nombre) ==>
                  f in w'.files && w'.files[f] == w.files[f])
  {
    var p := w.pending.value;
    var w' := ChoosePrincipal(w, Some(code)).world;
    assert w' == Commit(w, p, code);
    var row := LedgerLine(p.nombre, FrenteFromCodigo(code), code, p.fecha);
    assert w'.Lines() == w.Lines() + [row];
    assert (w.Lines() + [row])[..|w.Lines()|] == w.Lines();
    ChoicesAreClassified();
  }

  // ---------------------------------------------------------------------
  // Conversation routing

  /** An update reaching the bot: a photo message taken at time `fecha`, a button press, or /cancel. */
  datatype Event = PhotoUpdate(msg: Message, fecha: string) | ButtonPress(data: Option<string>) | CancelCommand

  /** The user's conversation state together with the world. */
  datatype Config = Config(state: ConvState, world: World)

  datatype Step = Step(config: Config, reply: Option<Reply>)

  /** The state a handler's return value leaves the conversation in. */
  function NextState(current: ConvState, next: Option<ConvState>): ConvState
  {
    if next.Some? then next.value else current
  }

  /** Runs a handler's result into the conversation. */
  function Apply(state: ConvState, h: HandlerResult): Step
  {
    Step(Config(NextState(state, h.next), h.world), h.reply)
  }

  /**
   * The conversation framework: a photo message starts the conversation in
   * any state (re-entry is allowed); a button press reaches its handler
   * only while the location question is open, and so does /cancel; every
   * other update is ignored.
   */
  function Dispatch(c: Config, ev: Event): (r: Step)
    ensures c.state == End && !ev.PhotoUpdate? ==> r == Step(c, None)
    ensures ev.PhotoUpdate? && ev.msg.photo == [] ==> r == Step(c, None)
    ensures ev.PhotoUpdate? && ev.msg.photo != [] ==>
              r == Step(Config(AskPrincipal, c.world.(pending := Some(NewSubmission(ev.msg, ev.fecha)))),
                        Some(ChooseLocation))
    ensures c.state == AskPrincipal && ev.ButtonPress? ==>
              r == Apply(AskPrincipal, ChoosePrincipal(c.world, ev.data))
    ensures c.state == AskPrincipal && ev.CancelCommand? ==>
              r == Step(Config(End, c.world.(pending := None)), Some(Cancelled))
    ensures r.reply.None? ==> r.config == c
  {
    match ev
    case PhotoUpdate(m, fecha) =>
      if m.photo == [] then Step(c, None)
      else Apply(c.state, OnPhoto(c.world, Some(m), fecha))
    case ButtonPress(data) =>
      if c.state == End then Step(c, None)
      else Apply(c.state, ChoosePrincipal(c.world, data))
    case CancelCommand =>
      if c.state == End then Step(c, None)
      else Apply(c.state, Cancel(c.world))
  }

  /** A submission is pending exactly while the location question is open. */
  predicate Consistent(c: Config)
  {
    c.world.pending.Some? <==> c.state == AskPrincipal
  }

  /**
   * Every handler leaves a consistent conversation: the photo handler opens
   * the question together with the pending submission, the other two clear
   * the submission whenever they end the conversation and keep it while the
   * question stays open. So a button press always finds its photo.
   */
  lemma DispatchConsistent(c: Config, ev: Event)
    requires Consistent(c)
    ensures Consistent(Dispatch(c, ev).config)
    ensures Dispatch(c, ev).config.world.root == c.world.root
    ensures c.world.ledger.Some? ==> Dispatch(c, ev).config.world.ledger.Some?
    ensures Dispatch(c, ev).reply != Some(PhotoNotFound)
  {
  }

  /** The configurations and replies of a sequence of updates. */
  function Run(c: Config, evs: seq<Event>): (r: (Config, seq<Option<Reply>>))
    ensures |r.1| == |evs|
    decreases |evs|
  {
    if evs == [] then (c, [])
    else
      var s := Dispatch(c, evs[0]);
      var rest := Run(s.config, evs[1..]);
      (rest.0, [s.reply] + rest.1)
  }

  /** The successful-save replies among `replies`. */
  function SavedCount(replies: seq<Option<Reply>>): nat
  {
    if replies == [] then 0
    else (if replies[0].Some? && replies[0].value.Saved? then 1 else 0) + SavedCount(replies[1..])
  }

  /**
   * One step appends at most one ledger row and never rewrites earlier ones;
   * it appends one exactly when it replies with a save; files are never
   * removed; the save reply names a file that now exists.
   */
  lemma DispatchLedger(c: Config, ev: Event)
    ensures var s := Dispatch(c, ev);
            var before, after := c.world.Lines(), s.config.world.Lines();
            && before <= after
            && |after| == |before| + (if s.reply.Some? && s.reply.value.Saved? then 1 else 0)
            && c.world.files.Keys <= s.config.world.files.Keys
            && (s.reply.Some? && s.reply.value.Saved? ==>
                  Join(s.reply.value.folder, s.reply.value.nombre) in s.config.world.files)
  {
  }

  /** A run keeps every conversation consistent. */
  lemma {:induction false} RunConsistent(c: Config, evs: seq<Event>)
    requires Consistent(c)
    ensures Consistent(Run(c, evs).0)
    decreases |evs|
  {
    if evs != [] {
      DispatchConsistent(c, evs[0]);
      RunConsistent(Dispatch(c, evs[0]).config, evs[1..]);
    }
  }

  /**
   * In a single chat the button handler never meets an open question with
   * nothing pending: no update of a run answers "photo not found".
   */
  lemma {:induction false} RunNeverLosesPhoto(c: Config, evs: seq<Event>)
    requires Consistent(c)
    ensures forall i :: 0 <= i < |evs| ==> Run(c, evs).1[i] != Some(PhotoNotFound)
    decreases |evs|
  {
    if evs != [] {
      var s := Dispatch(c, evs[0]);
      DispatchConsistent(c, evs[0]);
      RunNeverLosesPhoto(s.config, evs[1..]);
      assert Run(c, evs).1 == [s.reply] + Run(s.config, evs[1..]).1;
    }
  }

  /**
   * Over any run the ledger is append-only: its earlier chunks are kept and
   * exactly one row is added per successful save; photo files are never
   * removed.
   */
  lemma {:induction false} RunLedgerAppendOnly(c: Config, evs: seq<Event>)
    ensures var r := Run(c, evs);
            && c.world.Lines() <= r.0.world.Lines()
            && |r.0.world.Lines()| == |c.world.Lines()| + SavedCount(r.1)
            && c.world.files.Keys <= r.0.world.files.Keys
    decreases |evs|
  {
    if evs != [] {
      var s := Dispatch(c, evs[0]);
      DispatchLedger(c, evs[0]);
      RunLedgerAppendOnly(s.config, evs[1..]);
      var r := Run(c, evs);
      assert r.1 == [s.reply] + Run(s.config, evs[1..]).1;
      assert r.1[1..] == Run(s.config, evs[1..]).1;
    }
  }

  /**
   * Every save reported during a run names a photo file that still exists
   * at the end of the run.
   */
  lemma {:induction false} RunSavedFilesExist(c: Config, evs: seq<Event>, i: nat)
    requires i < |evs|
    requires var r := Run(c, evs); r.1[i].Some? && r.1[i].value.Saved?
    ensures var r := Run(c, evs);
            Join(r.1[i].value.folder, r.1[i].value.nombre) in r.0.world.files
    decreases |evs|
  {
    var s := Dispatch(c, evs[0]);
    var rest := Run(s.config, evs[1..]);
    if i == 0 {
      DispatchLedger(c, evs[0]);
      RunLedgerAppendOnly(s.config, evs[1..]);
    } else {
      RunSavedFilesExist(s.config, evs[1..], i - 1);
    }
  }

  // ---------------------------------------------------------------------
  // A worked conversation

  /** The file name of the worked conversation below. */
  lemma AnaFileName()
    ensures FileName(Some("ana"), 7, "2024-01-01 10-00-00") == "ana_7_2024-01-01 10-00-00.jpg"
  {
  }

  /** The folder and destination of the worked conversation below. */
  lemma AnaPaths()
    ensures SubDir(DefaultSaveRoot, "BR-OR") == "./photos/BR-OR"
    ensures DestPath(DefaultSaveRoot, "BR-OR", "ana_7_2024-01-01 10-00-00.jpg")
            == "./photos/BR-OR/ana_7_2024-01-01 10-00-00.jpg"
  {
    AnaSubDir();
    AnaJoin();
  }

  lemma AnaSubDir()
    ensures SubDir(DefaultSaveRoot, "BR-OR") == "./photos/BR-OR"
  {
    PrefixHead("/", "BR-OR");
  }

  lemma AnaJoin()
    ensures Join("./photos/BR-OR", "ana_7_2024-01-01 10-00-00.jpg") == "./photos/BR-OR/ana_7_2024-01-01 10-00-00.jpg"
  {
    PrefixHead("/", "ana_7_2024-01-01 10-00-00.jpg");
  }

  /** The ledger row of the worked conversation below. */
  lemma AnaRow()
    ensures LedgerLine("ana_7_2024-01-01 10-00-00.jpg", FrenteFromCodigo("BR-OR"), "BR-OR", "2024-01-01 10-00-00")
            == "ana_7_2024-01-01 10-00-00.jpg,BREMEN,BR-OR,2024-01-01 10-00-00\n"
  {
    assert "BR" <= "BR-OR";
    assert FrenteFromCodigo("BR-OR") == "BREMEN";
  }

  /**
   * User `ana` (id 7) sends a photo at 2024-01-01 10:00:00 and picks BR-OR
   * on a fresh install: the photo is stored as
   * `./photos/BR-OR/ana_7_2024-01-01 10-00-00.jpg` and the ledger holds the
   * header and one BREMEN row for it.
   */
  lemma PhotoThenBremen(h: PhotoHandle)
    ensures var c := Config(End, Startup(DefaultSaveRoot, None, map[], {}));
            var fecha := "2024-01-01 10-00-00";
            var evs := [PhotoUpdate(Message(User(7, Some("ana")), [h]), fecha), ButtonPress(Some("BR-OR"))];
            var nombre := "ana_7_2024-01-01 10-00-00.jpg";
            var r := Run(c, evs);
            && r.0.state == End && r.0.world.pending.None?
            && r.0.world.files == map["./photos/BR-OR/ana_7_2024-01-01 10-00-00.jpg" := h]
            && r.0.world.ledger == Some([CsvHeader, "ana_7_2024-01-01 10-00-00.jpg,BREMEN,BR-OR,2024-01-01 10-00-00\n"])
            && r.1 == [Some(ChooseLocation), Some(Saved("./photos/BR-OR", nombre, fecha))]
  {
    var c := Config(End, Startup(DefaultSaveRoot, None, map[], {}));
    var fecha := "2024-01-01 10-00-00";
    var nombre := "ana_7_2024-01-01 10-00-00.jpg";
    var e0 := PhotoUpdate(Message(User(7, Some("ana")), [h]), fecha);
    var e1 := ButtonPress(Some("BR-OR"));
    AnaFileName();
    AnaPaths();
    AnaRow();
    var sub := Submission(h, nombre, fecha);
    var w1 := World(DefaultSaveRoot, Some([CsvHeader]), map[], {DefaultSaveRoot}, Some(sub));
    assert NewSubmission(e0.msg, fecha) == sub;
    var s0 := Dispatch(c, e0);
    assert s0 == Step(Config(AskPrincipal, w1), Some(ChooseLocation));
    var w2 := Commit(w1, sub, "BR-OR");
    var row := "ana_7_2024-01-01 10-00-00.jpg,BREMEN,BR-OR,2024-01-01 10-00-00\n";
    assert w1.Lines() == [CsvHeader];
    assert [CsvHeader] + [row] == [CsvHeader, row];
    assert w2.ledger == Some([CsvHeader, row]);
    var s1 := Dispatch(s0.config, e1);
    assert s1 == Step(Config(End, w2), Some(Saved("./photos/BR-OR", nombre, fecha)));
    assert [e0, e1][1..] == [e1];
    assert Run(s1.config, []) == (s1.config, []);
    assert [e1][1..] == [] && [e1][0] == e1;
    assert [s1.reply] + [] == [s1.reply];
    assert Run(s0.config, [e1]) == (s1.config, [s1.reply]);
  }
}
