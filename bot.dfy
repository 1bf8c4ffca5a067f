/**
 * The bot as the running process holds it: the user's conversation data
 * and conversation state, and the shared ledger and photo folders, all
 * updated in place by the handlers. Each method is proved to do what the
 * corresponding function of module Controller describes.
 */
module Bot {
  import opened Options
  import opened Naming
  import opened Controller

  class FotoBot {
    /** The save root (`./photos` unless configured otherwise). */
    const root: string
    /** The ledger file: None while it does not exist, else the chunks written to it. */
    var ledger: Option<seq<string>>
    /** The photo files, by path. */
    var files: map<string, PhotoHandle>
    /** The folders that exist. */
    var dirs: set<string>
    /** The user's conversation data: the pending submission, if any. */
    var pending: Option<Submission>
    /** The conversation state the framework keeps for the user. */
    var state: ConvState

    /** The fields the handlers work on, as one value. */
    function Snapshot(): World
      reads this
    {
      World(root, ledger, files, dirs, pending)
    }

    /** The conversation as the framework sees it. */
    function Conversation(): Config
      reads this
    {
      Config(state, Snapshot())
    }

    /** After start-up the ledger exists, and a submission is pending only while the question is open. */
    ghost predicate Valid()
      reads this
    {
      ledger.Some? && Consistent(Conversation())
    }

    /**
     * Process start with the file system as found: the save root is
     * created and the ledger initialised; no conversation is open.
     */
    constructor (root: string, ledger: Option<seq<string>>, files: map<string, PhotoHandle>, dirs: set<string>)
      ensures Valid()
      ensures Snapshot() == Startup(root, ledger, files, dirs) && state == End
    {
      this.root := root;
      this.ledger := ledger;
      this.files := files;
      this.dirs := dirs + {root};
      this.pending := None;
      this.state := End;
      new;
      EnsureCsv();
    }

    /** Creates the ledger holding just the header when its file is absent; an existing ledger is left alone. */
    method EnsureCsv()
      modifies this`ledger
      ensures ledger == Controller.EnsureCsv(old(ledger))
      ensures old(ledger).None? ==> ledger == Some([CsvHeader])
      ensures old(ledger).Some? ==> ledger == old(ledger)
    {
      if ledger.None? {
        ledger := Some([CsvHeader]);
      }
    }

    /**
     * The photo handler: remembers the largest size of the photo with its
     * generated file name and time, replacing any earlier pending
     * submission, and asks for the location. Writes nothing.
     */
    method OnPhoto(msg: Option<Message>, fecha: string) returns (next: Option<ConvState>, reply: Option<Reply>)
      modifies this`pending
      ensures HandlerResult(Snapshot(), next, reply) == Controller.OnPhoto(old(Snapshot()), msg, fecha)
      ensures ledger == old(ledger) && files == old(files) && dirs == old(dirs)
    {
      if msg.None? || msg.value.photo == [] {
        return None, None;
      }
      var m := msg.value;
      var photoFile := m.photo[|m.photo| - 1];
      var nombre := FileName(m.from.username, m.from.id, fecha);
      pending := Some(Submission(photoFile, nombre, fecha));
      next, reply := Some(AskPrincipal), Some(ChooseLocation);
    }

    /**
     * The button handler: rejects an unknown code, then gives up when no
     * photo is pending; otherwise creates the code's folder, stores the
     * photo in it, appends its ledger row and clears the conversation data.
     */
    method ChoosePrincipal(data: Option<string>) returns (next: ConvState, reply: Reply)
      modifies this`pending, this`ledger, this`files, this`dirs
      ensures HandlerResult(Snapshot(), Some(next), Some(reply)) == Controller.ChoosePrincipal(old(Snapshot()), data)
      ensures reply.InvalidOption? || reply.PhotoNotFound? ==>
                ledger == old(ledger) && files == old(files) && dirs == old(dirs) && pending == old(pending)
      ensures reply.Saved? ==> ledger.Some? && |ledger.value| == |old(Snapshot()).Lines()| + 1 && pending.None?
    {
      if data.None? || data.value !in PrincipalChoices {
        return AskPrincipal, InvalidOption;
      }
      var principal := data.value;
      if pending.None? {
        return End, PhotoNotFound;
      }
      var p := pending.value;
      var subdir := SubDir(root, principal);
      dirs := dirs + {subdir};
      var destPath := Join(subdir, p.nombre);
      files := files[destPath := p.file];
      var frente := FrenteFromCodigo(principal);
      ledger := Some(ledger.GetOr([]) + [LedgerLine(p.nombre, frente, principal, p.fecha)]);
      pending := None;
      next, reply := End, Saved(subdir, p.nombre, p.fecha);
    }

    /** The /cancel handler: clears the conversation data and ends the conversation. */
    method Cancel() returns (next: ConvState, reply: Reply)
      modifies this`pending
      ensures HandlerResult(Snapshot(), Some(next), Some(reply)) == Controller.Cancel(old(Snapshot()))
      ensures pending.None? && next == End
    {
      pending := None;
      next, reply := End, Cancelled;
    }

    /**
     * One update through the conversation framework: it picks the handler
     * the current state admits and stores the state the handler returns.
     */
    method Handle(ev: Event) returns (reply: Option<Reply>)
      requires Valid()
      modifies this
      ensures Valid()
      ensures Step(Conversation(), reply) == Dispatch(old(Conversation()), ev)
    {
      DispatchConsistent(Conversation(), ev);
      match ev
      case PhotoUpdate(m, fecha) =>
        if m.photo == [] {
          return None;
        }
        var next;
        next, reply := OnPhoto(Some(m), fecha);
        state := NextState(state, next);
      case ButtonPress(data) =>
        if state == End {
          return None;
        }
        var next, r := ChoosePrincipal(data);
        state, reply := next, Some(r);
      case CancelCommand =>
        if state == End {
          return None;
        }
        var next, r := Cancel();
        state, reply := next, Some(r);
    }
  }
}
