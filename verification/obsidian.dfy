/** Export of a session to an Obsidian vault: the file name it gets and the
    note written there. The vault's existence and the date rendering are
    inputs. */
module Obsidian {
  import opened Wrappers
  import opened Text
  import opened Transcript
  import Sessions
  import MeetingNote

  /** The characters a file name may not hold. */
  const Forbidden: set<char> := {'<', '>', ':', '"', '/', '\\', '|', '?', '*'}

  /** The characters trimmed from both ends of a file name. */
  const Trimmed: set<char> := {'.', ' '}

  const DefaultSubfolder: string := "meetings/mnemosyne"

  predicate Clean(s: string) {
    forall i :: 0 <= i < |s| ==> s[i] !in Forbidden
  }

  /** The regular-expression substitution: every forbidden character is
      deleted, the others kept in order. */
  function RemoveForbidden(s: string): (r: string)
    ensures |r| <= |s|
    ensures Clean(r)
  {
    if s == [] then []
    else (if s[0] in Forbidden then [] else [s[0]]) + RemoveForbidden(s[1..])
  }

  /** The substitution works on each character on its own and keeps the
      order: with `RemoveForbiddenSingle` this fixes the result as "the
      non-forbidden characters, in order". */
  lemma {:induction false} RemoveForbiddenAppend(a: string, b: string)
    ensures RemoveForbidden(a + b) == RemoveForbidden(a) + RemoveForbidden(b)
  {
    if a == [] {
      assert a + b == b;
    } else {
      var ab := a + b;
      assert ab[0] == a[0];
      assert ab[1..] == a[1..] + b;
      RemoveForbiddenAppend(a[1..], b);
      var head: string := if a[0] in Forbidden then [] else [a[0]];
      assert RemoveForbidden(ab) == head + RemoveForbidden(a[1..] + b);
      assert RemoveForbidden(a) == head + RemoveForbidden(a[1..]);
    }
  }

  lemma RemoveForbiddenSingle(c: char)
    ensures RemoveForbidden([c]) == (if c in Forbidden then [] else [c])
  {
  }

  /** A clean name loses nothing to the substitution. */
  lemma {:induction false} RemoveForbiddenClean(s: string)
    requires Clean(s)
    ensures RemoveForbidden(s) == s
  {
    if s != [] {
      RemoveForbiddenClean(s[1..]);
      assert s == [s[0]] + s[1..];
    }
  }

  /** Trimming takes a slice, so it cannot bring a forbidden character in. */
  lemma StripKeepsClean(s: string, cs: set<char>)
    requires Clean(s)
    ensures Clean(StripChars(s, cs))
  {
    var lo := SkipLeft(s, cs, 0);
    var hi := SkipRight(s, cs, lo, |s|);
    assert StripChars(s, cs) == s[lo..hi];
  }

  /** `_sanitize_filename`: the name without its forbidden characters,
      stripped of dots and spaces at both ends, or `untitled` when nothing is
      left. */
  function Sanitize(name: string): (r: string)
    ensures r != []
    ensures Clean(r)
    ensures r[0] !in Trimmed && r[|r| - 1] !in Trimmed
    ensures StripChars(RemoveForbidden(name), Trimmed) != [] ==> r == StripChars(RemoveForbidden(name), Trimmed)
    ensures StripChars(RemoveForbidden(name), Trimmed) == [] ==> r == "untitled"
  {
    var removed := RemoveForbidden(name);
    var stripped := StripChars(removed, Trimmed);
    StripKeepsClean(removed, Trimmed);
    if stripped == [] then "untitled" else stripped
  }

  /** Sanitising a sanitised name changes nothing. */
  lemma SanitizeIdempotent(name: string)
    ensures Sanitize(Sanitize(name)) == Sanitize(name)
  {
    var r := Sanitize(name);
    RemoveForbiddenClean(r);
    SkipLeftNoop(r, Trimmed);
    SkipRightNoop(r, Trimmed, 0);
    assert r[0..|r|] == r;
    assert StripChars(r, Trimmed) == r;
  }

  /** A name made only of forbidden and trimmed characters falls back to
      `untitled`. */
  lemma SanitizeFallback(name: string)
    requires forall i :: 0 <= i < |name| ==> name[i] in Forbidden || name[i] in Trimmed
    ensures Sanitize(name) == "untitled"
  {
    AllTrimmedAfterRemoval(name);
  }

  lemma {:induction false} AllTrimmedAfterRemoval(name: string)
    requires forall i :: 0 <= i < |name| ==> name[i] in Forbidden || name[i] in Trimmed
    ensures AllIn(RemoveForbidden(name), Trimmed)
  {
    if name != [] {
      AllTrimmedAfterRemoval(name[1..]);
    }
  }

  /** A file the exporter writes: where it goes and what it holds. */
  datatype ExportedFile = ExportedFile(path: string, content: string)

  /** Where the note for a session named `name` goes:
      `{vault}/{subfolder}/{date}-{sanitised name}.md`. */
  function ExportPath(vault: string, subfolder: string, date: string, name: string): (r: string)
    ensures StartsWith(r, vault + "/" + subfolder + "/" + date + "-")
    ensures EndsWith(r, Sanitize(name) + ".md")
  {
    var head := vault + "/" + subfolder + "/" + date + "-";
    var tail := Sanitize(name) + ".md";
    var r := head + tail;
    assert r[..|head|] == head;
    assert r[|r| - |tail|..] == tail;
    r
  }

  /** `export`: refused when the vault is missing; otherwise the rendered
      note of the session, at its export path. */
  function Export(vaultExists: bool, vault: string, subfolder: string, session: Sessions.Session, date: string)
    : (r: Result<ExportedFile, string>)
    ensures !vaultExists <==> r.Failure?
    ensures r.Failure? ==> r.error == "FileNotFoundError: Vault path does not exist: " + vault
    ensures r.Success? ==> r.value.path == ExportPath(vault, subfolder, date, session.name)
    ensures r.Success? ==> r.value.content == MeetingNote.RenderMeetingNote(
              session.name, date, session.participants, DumpAll(session.transcript), session.summary, session.notes)
  {
    if !vaultExists then Failure("FileNotFoundError: Vault path does not exist: " + vault)
    else
      var content := MeetingNote.RenderMeetingNote(
        session.name, date, session.participants, DumpAll(session.transcript), session.summary, session.notes);
      Success(ExportedFile(ExportPath(vault, subfolder, date, session.name), content))
  }

  /** The segment dictionaries the renderer receives: every stored segment,
      dumped in order. */
  function DumpAll(segs: seq<TranscriptSegment>): (r: seq<SegmentDict>)
    ensures |r| == |segs|
    ensures forall i :: 0 <= i < |r| ==> r[i] == ToDict(segs[i])
  {
    if segs == [] then [] else [ToDict(segs[0])] + DumpAll(segs[1..])
  }

  /** The exported file name never holds a path separator of its own, so the
      note lands directly in the configured folder. */
  lemma ExportFileNameIsLocal(vault: string, subfolder: string, date: string, name: string)
    requires '/' !in date
    ensures var path := ExportPath(vault, subfolder, date, name);
            var prefix := vault + "/" + subfolder + "/";
            && path[..|prefix|] == prefix
            && '/' !in path[|prefix|..]
  {
    var prefix := vault + "/" + subfolder + "/";
    var safe := Sanitize(name);
    assert Clean(safe);
    var path := ExportPath(vault, subfolder, date, name);
    assert path == prefix + (date + "-" + safe + ".md");
    assert path[|prefix|..] == date + "-" + safe + ".md";
    assert '/' !in safe by {
      forall k | 0 <= k < |safe| ensures safe[k] != '/' {
        assert safe[k] !in Forbidden;
      }
    }
  }
}
