/** Which requests of an archive import are accepted: an upload sent in order arrives whole, whatever others send
    meanwhile, and is handed over exactly when it may be. */
module ArchiveUpload {
  import opened Types
  import opened ArchiveTransfer
  import Controller
  import PresetArchive

  /** The transfer slot is taking an upload of this size under this token from this client. */
  predicate Taking(a: State, generation: nat, token: nat, total: nat)
  {
    && a.mode.Importing? && a.owner == generation && a.token == token && a.total == total
    && Usable(a) && a.received <= a.total <= 32768
  }

  /** An import can begin exactly when the slot is free, the buffer large enough and the tokens not used up; it then
      takes the announced number of characters, none of them yet, based on the presets as they are. */
  lemma ImportBegins(a: State, c: Controller.State, bytes: nat, generation: nat, env: Env)
    requires 1 <= bytes <= 32768
    ensures var (e, d, answer) := Handle(a, c, Import(bytes), generation, env);
            var able := |a.buffer| >= 32768 && a.mode == Idle && a.counter != 0xFFFF_FFFF;
            && d == c
            && (able ==>
                  && Taking(e, generation, a.counter + 1, bytes) && e.received == 0 && e.base == c.presetRevision
                  && e.counter == a.counter + 1 && e.started == e.touched == env.now && e.chunks == []
                  && e.buffer == a.buffer
                  && answer == Reply("ready", a.counter + 1, bytes, 0, 0, []))
            && (!able ==> e == a && answer.Reply? && answer.status in {"busy", "unavailable"})
  {
  }

  /** A chunk of the owner is taken exactly when it is the next one and fits; it then follows what was received. Any
      other chunk ends the transfer. */
  lemma ChunkTells(a: State, c: Controller.State, generation: nat, token: nat, total: nat, offset: nat, data: string,
                   env: Env)
    requires Taking(a, generation, token, total) && 1 <= |data| <= 96
    ensures var (e, d, answer) := Handle(a, c, Chunk(token, offset, data), generation, env);
            var next := offset == a.received && a.received + |data| <= total;
            && (next ==>
                  && Taking(e, generation, token, total) && e.base == a.base && d == c
                  && e.received == a.received + |data| && e.buffer[..e.received] == a.buffer[..a.received] + data
                  && answer == Reply("staged", token, total, a.received + |data|, a.count, []))
            && (!next ==>
                  && e.mode == Idle && e.owner == 0 && e.received == 0 && d.archiveToken == 0
                  && d == c.(archiveToken := 0) && answer.Reply? && answer.status == "invalid")
  {
    hide Erased;
    if offset == a.received && a.received + |data| <= total {
      OverwritePrefix(a.buffer, a.received, data);
    }
  }

  /** The complete upload is handed over exactly when it reads as an archive, the gate is open and no preset was touched
      since the import began; the token submitted then stands for what was read. Otherwise the transfer ends. */
  lemma ApplyTells(a: State, c: Controller.State, generation: nat, token: nat, total: nat, env: Env)
    requires Taking(a, generation, token, total)
    ensures var (e, d, answer) := Handle(a, c, Apply(token), generation, env);
            var parsed := PresetArchive.Parse(a.buffer[..a.received]);
            var able := a.received == total && env.ownerAlive && c.presetRevision == a.base && parsed.Some?;
            && (answer.Submit? <==> able)
            && (able ==> e.mode == Applying && answer.archiveToken != 0 && d.archiveToken == answer.archiveToken
                         && d.archive == parsed.value && d.archiveBase == a.base
                         && e.count == multiset(parsed.value.present)[true])
            && (!able ==> e.mode == Idle && d.archiveToken == 0)
            && (answer.Reply? && answer.status == "conflict" <==> a.received == total && c.presetRevision != a.base)
            && (answer.Reply? && answer.status != "conflict" ==> answer.status == "invalid")
            && d.working == c.working && d.presetRevision == c.presetRevision
  {
    hide Erased, PresetArchive.Parse, CountPresent;
    var parsed := PresetArchive.Parse(a.buffer[..a.received]);
    if parsed.Some? { CountIsMultiplicity(parsed.value.present); }
  }

  /** What the owner's own requests must look like: the pieces in order, each at the offset where the last one ended. */
  predicate InOrder(steps: seq<Step>, generation: nat, token: nat, at: nat, pieces: seq<string>)
    decreases |steps|
  {
    if steps == [] then pieces == []
    else
      match steps[0]
      case AbortStep => false
      case CommandStep(_, _) => InOrder(steps[1..], generation, token, at, pieces)
      case HandleStep(op, from, _) =>
        if from != generation then InOrder(steps[1..], generation, token, at, pieces)
        else
          && pieces != [] && op == Chunk(token, at, pieces[0]) && 1 <= |pieces[0]| <= 96
          && InOrder(steps[1..], generation, token, at + |pieces[0]|, pieces[1..])
  }

  function Joined(pieces: seq<string>): string
  {
    if pieces == [] then [] else pieces[0] + Joined(pieces[1..])
  }

  /** The answers one client gets along a run. */
  function AnswersTo(w: World, steps: seq<Step>, generation: nat): seq<Answer>
    decreases |steps|
  {
    if steps == [] then []
    else
      (if steps[0].HandleStep? && steps[0].generation == generation
       then [Handle(w.a, w.c, steps[0].op, generation, steps[0].env).2] else [])
      + AnswersTo(Next(w, steps[0]), steps[1..], generation)
  }

  predicate AllStaged(answers: seq<Answer>)
  {
    forall i :: 0 <= i < |answers| ==> answers[i].Reply? && answers[i].status == "staged"
  }

  lemma JoinedFirst(prefix: string, pieces: seq<string>)
    requires pieces != []
    ensures prefix + pieces[0] + Joined(pieces[1..]) == prefix + Joined(pieces)
    ensures |Joined(pieces)| == |pieces[0]| + |Joined(pieces[1..])|
  {
  }

  /** An upload sent in order arrives. Whatever the other clients ask for in between, and whatever commands the
      controller carries out, every piece is answered "staged" and the received text is exactly what was sent so
      far. */
  lemma {:induction false} UploadArrives(w: World, steps: seq<Step>, generation: nat, token: nat, total: nat,
                                         pieces: seq<string>)
    requires Taking(w.a, generation, token, total) && InOrder(steps, generation, token, w.a.received, pieces)
    requires w.a.received + |Joined(pieces)| <= total
    ensures var u := Run(w, steps);
            && Taking(u.a, generation, token, total) && u.a.base == w.a.base
            && u.a.received == w.a.received + |Joined(pieces)|
            && u.a.buffer[..u.a.received] == w.a.buffer[..w.a.received] + Joined(pieces)
            && AllStaged(AnswersTo(w, steps, generation)) && |AnswersTo(w, steps, generation)| == |pieces|
    decreases |steps|
  {
    hide Handle, Controller.Execute;
    if steps == [] {
      assert w.a.buffer[..w.a.received] + [] == w.a.buffer[..w.a.received];
    } else {
      var n := Next(w, steps[0]);
      match steps[0]
      case CommandStep(_, _) => UploadArrives(n, steps[1..], generation, token, total, pieces);
      case HandleStep(op, from, env) =>
        if from != generation {
          OthersCannotInterfere(w.a, w.c, op, from, env);
          UploadArrives(n, steps[1..], generation, token, total, pieces);
        } else {
          JoinedFirst(w.a.buffer[..w.a.received], pieces);
          ChunkTells(w.a, w.c, generation, token, total, w.a.received, pieces[0], env);
          UploadArrives(n, steps[1..], generation, token, total, pieces[1..]);
        }
    }
  }

  /** The import as a whole. From a free slot: announce a text of 1 to 32768 characters, send it in order in pieces
      of 1 to 96, others interleaved, and ask to apply it. It is submitted if and only if the text reads as an
      archive, the gate is open and no preset was touched meanwhile, and what is then staged is what the text says. */
  lemma UploadIsSubmitted(w: World, text: string, pieces: seq<string>, steps: seq<Step>, generation: nat,
                          first: Env, last: Env)
    requires w.a.mode == Idle && |w.a.buffer| >= 32768 && w.a.counter != 0xFFFF_FFFF
    requires 1 <= |text| <= 32768 && Joined(pieces) == text && InOrder(steps, generation, w.a.counter + 1, 0, pieces)
    ensures var begun := Next(w, HandleStep(Import(|text|), generation, first));
            var u := Run(begun, steps);
            var (e, d, answer) := Handle(u.a, u.c, Apply(w.a.counter + 1), generation, last);
            var parsed := PresetArchive.Parse(text);
            && AllStaged(AnswersTo(begun, steps, generation))
            && (answer.Submit? <==> parsed.Some? && last.ownerAlive && u.c.presetRevision == w.c.presetRevision)
            && (answer.Submit? ==> d.archive == parsed.value && d.archiveToken == answer.archiveToken)
  {
    hide Handle, PresetArchive.Parse, Run, Joined;
    ImportBegins(w.a, w.c, |text|, generation, first);
    var begun := Next(w, HandleStep(Import(|text|), generation, first));
    UploadArrives(begun, steps, generation, w.a.counter + 1, |text|, pieces);
    var u := Run(begun, steps);
    assert begun.a.buffer[..0] + text == text;
    ApplyTells(u.a, u.c, generation, w.a.counter + 1, |text|, last);
  }

  /** A cancel by the owner ends the transfer, whatever its stage. */
  lemma CancelEnds(a: State, c: Controller.State, generation: nat, env: Env)
    requires Usable(a) && a.mode != Idle && a.owner == generation
    ensures var (e, d, answer) := Handle(a, c, Cancel(a.token), generation, env);
            && e.mode == Idle && d == c.(archiveToken := 0) && answer.Reply? && answer.status == "cancelled"
  {
    hide Erased;
  }

  // ---------------------------------------------------------------------------------------
  // Beginning an export, going on, and ending

  lemma {:induction false} CountIsMultiplicity(present: seq<bool>)
    ensures CountPresent(present) == multiset(present)[true]
  {
    if present != [] {
      CountIsMultiplicity(present[1..]);
      assert present == [present[0]] + present[1..];
    }
  }

  /** An export begins exactly when the slot is free, tokens are left and the presets could be read; it announces
      the length of their archive and how many there are, and nothing stays staged. Presets that cannot be read use
      a token up. */
  lemma ExportBegins(a: State, c: Controller.State, generation: nat, env: Env)
    requires Usable(a)
    ensures var (e, d, answer) := Handle(a, c, Export, generation, env);
            var free := a.mode == Idle && a.counter != 0xFFFF_FFFF;
            var readable := env.captured.Some? && PresetArchive.Shaped(env.captured.value);
            && (!free ==> e == a && d == c && answer.Reply? && answer.status in {"busy", "unavailable"})
            && (free && !readable ==>
                  && e.mode == Idle && e.counter == a.counter + 1 && d == c.(archiveToken := 0)
                  && answer.Reply? && answer.status == "storage_error")
            && (free && readable ==>
                  var text := PresetArchive.Print(env.captured.value);
                  && e.mode == Exporting && e.owner == generation && e.token == e.counter == a.counter + 1
                  && e.started == e.touched == env.now && e.total == |text| && e.buffer[..|text|] == text
                  && e.count == multiset(env.captured.value.present)[true] && d == c.(archiveToken := 0)
                  && answer == Reply("ready", e.token, |text|, 0, e.count, []))
  {
    hide PresetArchive.Print, Erased, CountPresent;
    if env.captured.Some? && PresetArchive.Shaped(env.captured.value) {
      PresetArchive.PrintFits(env.captured.value);
      CountIsMultiplicity(env.captured.value.present);
      OverwritePrefix(a.buffer, 0, PresetArchive.Print(env.captured.value));
    }
  }

  /** A request under another token is refused and changes nothing. One under the right token that does not end the
      transfer keeps it alive: the idle time starts anew, the total time does not. */
  lemma GoingOn(a: State, c: Controller.State, op: Op, generation: nat, env: Env)
    requires Usable(a) && a.mode != Idle && a.owner == generation && !op.Export? && !op.Import?
    ensures var (e, d, answer) := Handle(a, c, op, generation, env);
            && (op.token != a.token ==> e == a && d == c && answer.Reply? && answer.status == "unauthorized")
            && (op.token == a.token && e.mode != Idle ==>
                  && e.touched == env.now && e.started == a.started && e.token == a.token && e.owner == a.owner
                  && e.base == a.base && e.total == a.total && e.counter == a.counter)
  {
    hide Erased, PresetArchive.Parse;
  }

  /** A client that does not own the transfer learns nothing of it, whatever it asks for. */
  lemma OthersLearnNothing(a: State, c: Controller.State, op: Op, generation: nat, env: Env)
    requires a.mode != Idle && a.owner != generation
    ensures var answer := Handle(a, c, op, generation, env).2;
            && answer == Reply(answer.status, 0, 0, 0, 0, [])
            && (Usable(a) ==> answer.status == if op.Export? || op.Import? then "busy" else "unauthorized")
  {
  }

  /** A read gives up to 512 characters of the text at its offset and changes nothing else; past the end it ends the
      export. */
  lemma ReadTells(a: State, c: Controller.State, generation: nat, offset: nat, env: Env)
    requires Usable(a) && a.mode == Exporting && a.owner == generation && a.total <= |a.buffer|
    ensures var (e, d, answer) := Handle(a, c, Read(a.token, offset), generation, env);
            if offset < a.total then
              && e == a.(touched := env.now) && d == c && answer.Reply? && answer.status == "data"
              && answer.offset == offset && answer.total == a.total
              && answer.data == a.buffer[offset..if a.total - offset < 512 then a.total else offset + 512]
            else e.mode == Idle && answer.Reply? && answer.status == "invalid"
  {
    hide Erased;
  }

  /** What ends a transfer leaves nothing of it behind: neither owner nor lengths nor a character of the text. */
  lemma AbortWipes(a: State, i: nat)
    requires i < |a.buffer|
    ensures var e := Aborted(a);
            && e.mode == Idle && e.owner == 0 && e.total == 0 && e.received == 0 && e.chunks == []
            && |e.buffer| == |a.buffer| && e.buffer[i] == (if i < a.total then 0 as char else a.buffer[i])
            && e.counter == a.counter && e.token == a.token
  {
  }
}
