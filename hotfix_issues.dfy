/** hotfix_issues.py: `fix_api_issues` rewrites the API source by whole-text `replace`
    substitutions, saves the original as a backup and writes the result back.

    The files are a map from path to text. */
module HotfixIssues {
  import opened Text

  const ApiFile := "/root/laika-dynamics-rag/api/main.py"
  const BackupFile := ApiFile + ".backup"

  /** Fix 1: the status endpoint header, to be replaced by an identical text. */
  const OldStatus := "@app.get(\"/api/status\")\nasync def get_status():"
  const NewStatus := "@app.get(\"/api/status\")\nasync def get_status():"

  /** Fix 2: create the upload directory before building the upload path. */
  const UploadComment := "        # Save uploaded file\n"
  const UploadPath := "        file_path = " + "f\"data/uploads/{file.filename}\""
  const MakeUploadDir := "        os.makedirs(" + "\"data/uploads\", exist_ok=True)\n"
  const OldUpload := UploadComment + UploadPath
  const NewUpload := UploadComment + MakeUploadDir + UploadPath

  /** Fix 3: keep `verify_password` and append an `optional_verify_password` after it.
      Long lines are written as several shorter literals. */
  const VerifyDef := "def verify_password(credentials:" + " HTTPBasicCredentials =" + " Depends(security)):\n"
  const VerifyUser := "    is_correct_username =" + " credentials.username ==" + " \"admin\"\n"
  const VerifyPassword := "    is_correct_password =" + " credentials.password ==" + " ADMIN_PASSWORD\n"
  const VerifyBlank := "    \n"
  const VerifyIf := "    if not (is_correct_username" + " and is_correct_password):\n"
  const VerifyRaise := "        raise HTTPException(\n"
  const VerifyStatus := "            status_code=" + "status.HTTP_401_UNAUTHORIZED,\n"
  const VerifyDetail := "            detail=\"Incorrect" + " username or password\",\n"
  const VerifyHeaders := "            headers={" + "\"WWW-Authenticate\": \"Basic\"},\n"
  const VerifyClose := "        )\n"
  const VerifyReturn := "    return credentials.username"
  const VerifyBody :=
    VerifyUser + VerifyPassword + VerifyBlank + VerifyIf + VerifyRaise + VerifyStatus +
    VerifyDetail + VerifyHeaders + VerifyClose + VerifyReturn
  const OldVerify := VerifyDef + VerifyBody

  const OptionalComment := "\n\n# Optional auth for testing -" + " remove in production\n"
  const OptionalDef :=
    "def optional_verify_password(" + "credentials: HTTPBasicCredentials =" + " Depends(security)):\n"
  const OptionalTry := "    try:\n"
  const OptionalReturn := "        return" + " verify_password(credentials)\n"
  const OptionalExcept := "    except HTTPException:\n"
  const OptionalAnonymous := "        return \"anonymous\"  #" + " Allow anonymous access for" + " testing"
  const OptionalVerify :=
    OptionalComment + OptionalDef + OptionalTry + OptionalReturn + OptionalExcept + OptionalAnonymous
  const NewVerify := OldVerify + OptionalVerify

  /** The first `replace`: every occurrence of the old `verify_password`. */
  function PatchVerify(content: string): string {
    ReplaceAll(content, OldVerify, NewVerify)
  }

  /** The second, guarded `replace`: the upload path, only when it is present. */
  function PatchUpload(content: string): string {
    if Contains(content, OldUpload) then ReplaceAll(content, OldUpload, NewUpload) else content
  }

  /** The text `fix_api_issues` writes back. */
  function Patch(content: string): string {
    PatchUpload(PatchVerify(content))
  }

  /** `fix_api_issues`: without the API file it reports failure and writes nothing;
      otherwise the backup holds the text read from disk and the API file the patched text. */
  method FixApiIssues(files: map<string, string>) returns (ok: bool, written: map<string, string>)
    ensures ok <==> ApiFile in files
    ensures !ok ==> written == files
    ensures ok ==>
              written.Keys == files.Keys + {BackupFile} &&
              written[BackupFile] == files[ApiFile] &&
              written[ApiFile] == Patch(files[ApiFile]) &&
              forall k :: k in files && k != ApiFile && k != BackupFile ==> written[k] == files[k]
  {
    if ApiFile !in files {
      return false, files;
    }
    var content := files[ApiFile];
    content := ReplaceAll(content, OldVerify, NewVerify);
    if Contains(content, OldUpload) {
      content := ReplaceAll(content, OldUpload, NewUpload);
    }
    written := files[BackupFile := files[ApiFile]];
    written := written[ApiFile := content];
    ok := true;
  }

  /** The replacement text of fix 1 equals its pattern, so applying it would change nothing. */
  lemma StatusFixIsNoOp(content: string)
    ensures OldStatus == NewStatus
    ensures ReplaceAll(content, OldStatus, NewStatus) == content
  {
    ReplaceSelf(content, OldStatus);
  }

  /** The new `verify_password` text begins with the old one and is longer. */
  lemma NewVerifyExtendsOld()
    ensures OldVerify != [] && |NewVerify| > |OldVerify|
    ensures StartsWith(NewVerify, OldVerify)
  {
    assert NewVerify[..|OldVerify|] == OldVerify;
  }

  /** Text without the old `verify_password` passes the first step unchanged. */
  lemma VerifyAbsentUnchanged(content: string)
    requires !Contains(content, OldVerify)
    ensures PatchVerify(content) == content
  {
    NewVerifyExtendsOld();
    ReplaceAbsent(content, OldVerify, NewVerify);
  }

  /** The guard of the second step changes nothing: guarded or not, the result is the same. */
  lemma UploadGuardRedundant(content: string)
    ensures PatchUpload(content) == ReplaceAll(content, OldUpload, NewUpload)
  {
    if !Contains(content, OldUpload) {
      ReplaceAbsent(content, OldUpload, NewUpload);
    }
  }

  /** Text holding neither target is written back unchanged. */
  lemma PatchUnchangedWithoutTargets(content: string)
    requires !Contains(content, OldVerify) && !Contains(content, OldUpload)
    ensures Patch(content) == content
  {
    VerifyAbsentUnchanged(content);
  }

  /** Both steps only insert text: the patched file is never shorter. */
  lemma PatchNeverShrinks(content: string)
    ensures |Patch(content)| >= |content|
  {
    NewVerifyExtendsOld();
    ReplaceNotShorter(content, OldVerify, NewVerify);
    assert |NewUpload| >= |OldUpload|;
    ReplaceNotShorter(PatchVerify(content), OldUpload, NewUpload);
  }

  /** Since the new text begins with the old, the first step leaves a match behind and
      grows the text whenever it applies. */
  lemma VerifyStepKeepsTarget(content: string)
    requires Contains(content, OldVerify)
    ensures Contains(PatchVerify(content), OldVerify)
    ensures |PatchVerify(content)| > |content|
  {
    NewVerifyExtendsOld();
    ReplaceKeepsPattern(content, OldVerify, NewVerify);
    ReplaceGrows(content, OldVerify, NewVerify);
  }

  /** Patching text that holds the old `verify_password` leaves the new one in the
      result, and with it the old one. */
  lemma PatchKeepsVerifyTarget(content: string)
    requires Contains(content, OldVerify)
    ensures Contains(Patch(content), NewVerify)
    ensures Contains(Patch(content), OldVerify)
  {
    NewVerifyExtendsOld();
    InsertedLetters();
    ReplaceInserts(content, OldVerify, NewVerify);
    var once := PatchVerify(content);
    var i: nat :| i <= |once| && OccursAt(once, NewVerify, i);
    UploadKeeps(once, NewVerify, i);
    var p: nat :| p <= |Patch(content)| && OccursAt(Patch(content), NewVerify, p);
    OccursPrefix(Patch(content), NewVerify, OldVerify, p);
  }

  /** The patch is not idempotent: patched text that still holds the old `verify_password`
      grows again, by a second `optional_verify_password`, when patched once more. */
  lemma PatchNotIdempotent(content: string)
    requires Contains(Patch(content), OldVerify)
    ensures |Patch(Patch(content))| > |Patch(content)|
    ensures Patch(Patch(content)) != Patch(content)
  {
    var once := Patch(content);
    VerifyStepKeepsTarget(once);
    assert |NewUpload| >= |OldUpload|;
    ReplaceNotShorter(PatchVerify(once), OldUpload, NewUpload);
  }

  /** Patching text that holds the new `verify_password` puts a second
      `optional_verify_password` after it. */
  lemma RepatchDoubles(once: string)
    requires Contains(once, NewVerify)
    ensures Contains(Patch(once), NewVerify + OptionalVerify)
  {
    InsertedLetters();
    var p: nat :| p <= |once| && OccursAt(once, NewVerify, p);
    VerifyStepDoubles(once, p);
    var twice := PatchVerify(once);
    var r: nat :| r <= |twice| && OccursAt(twice, NewVerify + OptionalVerify, r);
    UploadKeeps(twice, NewVerify + OptionalVerify, r);
  }

  /** Patching twice inserts a second `optional_verify_password` after the first. */
  lemma PatchTwiceRepeatsOptional(content: string)
    requires Contains(content, OldVerify)
    ensures Contains(Patch(Patch(content)), OldVerify + OptionalVerify + OptionalVerify)
    ensures |Patch(Patch(content))| > |Patch(content)|
  {
    PatchKeepsVerifyTarget(content);
    PatchNotIdempotent(content);
    RepatchDoubles(Patch(content));
  }

  // Character facts about the literal lines, one lemma per line. The solver only indexes
  // into a literal of a few dozen characters, so each long line is a concatenation of
  // shorter literals, and the `if k < …` split in each proof exists only to send every
  // index to the literal piece that holds it. The lemmas further down combine the lines.

  /** Characters that tell the texts apart, line by line. */
  lemma VerifyDefLetters()
    ensures |VerifyDef| == 76 && Lacks(VerifyDef, '/') && Lacks(VerifyDef, 'g')
  {
    forall k | 0 <= k < |VerifyDef| ensures VerifyDef[k] != '/' && VerifyDef[k] != 'g' {
      if k < 32 {
      } else if k < 55 {
      } else {
      }
    }
  }

  /** The one `v` of the first line is at index 4. */
  lemma VerifyDefOneV()
    ensures VerifyDef[4] == 'v' && forall k :: 0 <= k < |VerifyDef| && k != 4 ==> VerifyDef[k] != 'v'
  {
    forall k | 0 <= k < |VerifyDef| && k != 4 ensures VerifyDef[k] != 'v' {
      if k < 32 {
      } else if k < 55 {
      } else {
      }
    }
  }

  /** The first line has no `"`, and no `#` in its first eight characters. */
  lemma VerifyDefQuotes()
    ensures Lacks(VerifyDef, '"') && forall k :: 0 <= k < 8 ==> VerifyDef[k] != '#'
  {
    forall k | 0 <= k < |VerifyDef| ensures VerifyDef[k] != '"' {
      if k < 32 {
      } else if k < 55 {
      } else {
      }
    }
  }

  /** No slash, `g` or `v` in the text. */
  predicate Unmarked(s: string) {
    forall k :: 0 <= k < |s| ==> s[k] != '/' && s[k] != 'g' && s[k] != 'v'
  }

  /** The `VerifyUser` line has no slash, `g` or `v`. */
  lemma VerifyUserUnmarked()
    ensures Unmarked(VerifyUser)
  {
    forall k | 0 <= k < |VerifyUser| ensures VerifyUser[k] != '/' && VerifyUser[k] != 'g' && VerifyUser[k] != 'v' {
      if k < 25 {
      } else if k < 49 {
      } else {
      }
    }
  }

  /** The `VerifyPassword` line has no slash, `g` or `v`. */
  lemma VerifyPasswordUnmarked()
    ensures Unmarked(VerifyPassword)
  {
    forall k | 0 <= k < |VerifyPassword| ensures VerifyPassword[k] != '/' && VerifyPassword[k] != 'g' && VerifyPassword[k] != 'v' {
      if k < 25 {
      } else if k < 49 {
      } else {
      }
    }
  }

  /** The `VerifyIf` line has no slash, `g` or `v`. */
  lemma VerifyIfUnmarked()
    ensures Unmarked(VerifyIf)
  {
    forall k | 0 <= k < |VerifyIf| ensures VerifyIf[k] != '/' && VerifyIf[k] != 'g' && VerifyIf[k] != 'v' {
      if k < 31 {
      } else {
      }
    }
  }

  /** The `VerifyStatus` line has no slash, `g` or `v`. */
  lemma VerifyStatusUnmarked()
    ensures Unmarked(VerifyStatus)
  {
    forall k | 0 <= k < |VerifyStatus| ensures VerifyStatus[k] != '/' && VerifyStatus[k] != 'g' && VerifyStatus[k] != 'v' {
      if k < 24 {
      } else {
      }
    }
  }

  /** The `VerifyDetail` line has no slash, `g` or `v`. */
  lemma VerifyDetailUnmarked()
    ensures Unmarked(VerifyDetail)
  {
    forall k | 0 <= k < |VerifyDetail| ensures VerifyDetail[k] != '/' && VerifyDetail[k] != 'g' && VerifyDetail[k] != 'v' {
      if k < 29 {
      } else {
      }
    }
  }

  /** The `VerifyHeaders` line has no slash, `g` or `v`. */
  lemma VerifyHeadersUnmarked()
    ensures Unmarked(VerifyHeaders)
  {
    forall k | 0 <= k < |VerifyHeaders| ensures VerifyHeaders[k] != '/' && VerifyHeaders[k] != 'g' && VerifyHeaders[k] != 'v' {
      if k < 21 {
      } else {
      }
    }
  }

  /** The blank, `raise` and closing lines have no slash, `g` or `v`. */
  lemma ShortLinesUnmarked()
    ensures Unmarked(VerifyBlank) && Unmarked(VerifyRaise) && Unmarked(VerifyClose)
  {
  }

  /** The `VerifyReturn` line has no slash, `g` or `v`. */
  lemma VerifyReturnUnmarked()
    ensures Unmarked(VerifyReturn)
  {
  }

  /** The `OptionalComment` line of `optional_verify_password` has no slash. */
  lemma OptionalCommentSlashless()
    ensures Lacks(OptionalComment, '/')
  {
    forall k | 0 <= k < |OptionalComment| ensures OptionalComment[k] != '/' {
      if k < 31 {
      } else {
      }
    }
  }

  /** The `OptionalDef` line of `optional_verify_password` has no slash. */
  lemma OptionalDefSlashless()
    ensures Lacks(OptionalDef, '/')
  {
    forall k | 0 <= k < |OptionalDef| ensures OptionalDef[k] != '/' {
      if k < 29 {
      } else if k < 64 {
      } else {
      }
    }
  }

  /** The `OptionalReturn` line of `optional_verify_password` has no slash. */
  lemma OptionalReturnSlashless()
    ensures Lacks(OptionalReturn, '/')
  {
    forall k | 0 <= k < |OptionalReturn| ensures OptionalReturn[k] != '/' {
      if k < 14 {
      } else {
      }
    }
  }

  /** The `OptionalAnonymous` line of `optional_verify_password` has no slash. */
  lemma OptionalAnonymousSlashless()
    ensures Lacks(OptionalAnonymous, '/')
  {
    forall k | 0 <= k < |OptionalAnonymous| ensures OptionalAnonymous[k] != '/' {
      if k < 29 {
      } else if k < 56 {
      } else {
      }
    }
  }

  /** The `try` and `except` lines of `optional_verify_password` have no slash. */
  lemma ShortOptionalSlashless()
    ensures Lacks(OptionalTry, '/') && Lacks(OptionalExcept, '/')
  {
  }

  /** Neither line of the old upload text has a `g`. */
  lemma UploadLacksG()
    ensures Lacks(UploadComment, 'g') && Lacks(UploadPath, 'g')
  {
    forall k | 0 <= k < |UploadPath| ensures UploadPath[k] != 'g' {
      if k < 20 {
      } else {
      }
    }
  }

  lemma UnmarkedConcat(x: string, y: string)
    requires Unmarked(x) && Unmarked(y)
    ensures Unmarked(x + y)
  {
    forall k | 0 <= k < |x + y| ensures (x + y)[k] != '/' && (x + y)[k] != 'g' && (x + y)[k] != 'v' {
      if k >= |x| {
        assert (x + y)[k] == y[k - |x|];
      }
    }
  }

  lemma VerifyBodyUnmarked()
    ensures Unmarked(VerifyBody)
  {
    VerifyUserUnmarked();
    VerifyPasswordUnmarked();
    VerifyIfUnmarked();
    VerifyStatusUnmarked();
    VerifyDetailUnmarked();
    VerifyHeadersUnmarked();
    ShortLinesUnmarked();
    VerifyReturnUnmarked();
    var t := VerifyUser;
    UnmarkedConcat(t, VerifyPassword);
    t := t + VerifyPassword;
    UnmarkedConcat(t, VerifyBlank);
    t := t + VerifyBlank;
    UnmarkedConcat(t, VerifyIf);
    t := t + VerifyIf;
    UnmarkedConcat(t, VerifyRaise);
    t := t + VerifyRaise;
    UnmarkedConcat(t, VerifyStatus);
    t := t + VerifyStatus;
    UnmarkedConcat(t, VerifyDetail);
    t := t + VerifyDetail;
    UnmarkedConcat(t, VerifyHeaders);
    t := t + VerifyHeaders;
    UnmarkedConcat(t, VerifyClose);
    t := t + VerifyClose;
    UnmarkedConcat(t, VerifyReturn);
  }

  /** The characters of the old `verify_password` the proofs below rely on: one `v`,
      at index 4; no slash and no `g`; no `"` on its first line, no `#` in its first
      eight characters, and no `d` among its last four. */
  lemma OldVerifyLetters()
    ensures |OldVerify| == 490 && OldVerify[0] == 'd' && OldVerify[4] == 'v'
    ensures forall k :: 0 <= k < |OldVerify| ==>
              OldVerify[k] != '/' && OldVerify[k] != 'g' && (k != 4 ==> OldVerify[k] != 'v')
    ensures forall k :: 0 <= k < 76 ==> OldVerify[k] != '"'
    ensures forall k :: 0 <= k < 8 ==> OldVerify[k] != '#'
    ensures forall k :: 486 <= k < 490 ==> OldVerify[k] != 'd'
  {
    VerifyDefLetters();
    VerifyDefOneV();
    VerifyDefQuotes();
    VerifyBodyUnmarked();
    forall k | 0 <= k < |OldVerify|
      ensures OldVerify[k] != '/' && OldVerify[k] != 'g' && (k != 4 ==> OldVerify[k] != 'v')
    {
      if k < 76 {
        assert OldVerify[k] == VerifyDef[k];
      } else {
        assert OldVerify[k] == VerifyBody[k - 76];
      }
    }
    assert |VerifyBody| == 414 && |VerifyReturn| == 31;
    forall k | 486 <= k < 490 ensures OldVerify[k] != 'd' {
      assert OldVerify[k] == VerifyBody[k - 76] == VerifyReturn[k - 459];
    }
  }

  lemma OptionalLetters()
    ensures |OptionalVerify| == 281 && OptionalVerify[280] == 'g'
    ensures Lacks(OptionalVerify, '/')
  {
    OptionalCommentSlashless();
    OptionalDefSlashless();
    OptionalReturnSlashless();
    OptionalAnonymousSlashless();
    ShortOptionalSlashless();
    var t := OptionalComment;
    LacksConcat(t, OptionalDef, '/');
    t := t + OptionalDef;
    LacksConcat(t, OptionalTry, '/');
    t := t + OptionalTry;
    LacksConcat(t, OptionalReturn, '/');
    t := t + OptionalReturn;
    LacksConcat(t, OptionalExcept, '/');
    t := t + OptionalExcept;
    LacksConcat(t, OptionalAnonymous, '/');
    assert |OptionalAnonymous| == 64;
    assert OptionalVerify[280] == OptionalAnonymous[63];
  }

  /** The upload text: `#` at index 8, a slash at 55, `"` last, and no `g`. */
  lemma UploadLetters()
    ensures |OldUpload| == 80 && OldUpload[8] == '#' && OldUpload[55] == '/' && OldUpload[79] == '"'
    ensures Lacks(OldUpload, 'g')
  {
    UploadLacksG();
    LacksConcat(UploadComment, UploadPath, 'g');
    assert OldUpload[55] == UploadPath[26];
    assert OldUpload[79] == UploadPath[50];
  }

  /** What is inserted once and twice: both begin with the old `verify_password`, end
      in `g` and hold no slash. */
  lemma InsertedLetters()
    ensures StartsWith(NewVerify, OldVerify) && StartsWith(NewVerify + OptionalVerify, OldVerify)
    ensures NewVerify[|NewVerify| - 1] == 'g'
    ensures (NewVerify + OptionalVerify)[|NewVerify + OptionalVerify| - 1] == 'g'
    ensures Lacks(NewVerify, '/') && Lacks(NewVerify + OptionalVerify, '/')
  {
    OldVerifyLetters();
    OptionalLetters();
    assert NewVerify[..|OldVerify|] == OldVerify;
    assert (NewVerify + OptionalVerify)[..|OldVerify|] == OldVerify;
    assert NewVerify[|NewVerify| - 1] == OptionalVerify[280];
    assert (NewVerify + OptionalVerify)[|NewVerify + OptionalVerify| - 1] == OptionalVerify[280];
    LacksConcat(OldVerify, OptionalVerify, '/');
    LacksConcat(NewVerify, OptionalVerify, '/');
  }

  /** Replacing `pat`, a text of 80 characters with `#` at index 8, a slash at 55, `"`
      last and no `g`, keeps any text that begins with `head` (no `#` in its first eight
      characters, no `"` in its first 76), ends in `g` and holds no slash: no occurrence
      of `pat` overlaps it. */
  lemma ReplaceKeepsGuarded(x: string, q: string, i: nat, pat: string, rep: string, head: string)
    requires |pat| == 80 && pat[8] == '#' && pat[55] == '/' && pat[79] == '"' && Lacks(pat, 'g')
    requires |head| >= 76
    requires forall k :: 0 <= k < 8 ==> head[k] != '#'
    requires forall k :: 0 <= k < 76 ==> head[k] != '"'
    requires OccursAt(x, q, i) && StartsWith(q, head)
    requires q[|q| - 1] == 'g' && Lacks(q, '/')
    ensures Contains(ReplaceAll(x, pat, rep), q)
  {
    OccursPrefix(x, q, head, i);
    forall j: nat | j < i < j + |pat| ensures !OccursAt(x, pat, j) {
      if i - j <= 8 {
        assert x[j + 8] == x[i..i + |head|][j + 8 - i];
        Mismatch(x, pat, j, 8);
      } else {
        assert x[j + 79] == x[i..i + |head|][j + 79 - i];
        Mismatch(x, pat, j, 79);
      }
    }
    forall j: nat | j < i + |q| < j + |pat| ensures !OccursAt(x, pat, j) {
      assert x[i + |q| - 1] == x[i..i + |q|][|q| - 1];
      Mismatch(x, pat, j, i + |q| - 1 - j);
    }
    forall j: nat | j <= |q| ensures !OccursAt(q, pat, j) {
      if j + 55 < |q| {
        Mismatch(q, pat, j, 55);
      }
    }
    ReplaceKeepsFree(x, pat, rep, i, q);
  }

  /** The upload step keeps any text that begins with the old `verify_password`, ends in
      `g` and holds no slash. */
  lemma UploadKeeps(x: string, q: string, i: nat)
    requires OccursAt(x, q, i) && StartsWith(q, OldVerify)
    requires q[|q| - 1] == 'g' && Lacks(q, '/')
    ensures Contains(PatchUpload(x), q)
  {
    UploadLetters();
    OldVerifyLetters();
    UploadGuardRedundant(x);
    ReplaceKeepsGuarded(x, q, i, OldUpload, NewUpload, OldVerify);
  }

  /** A text with one `v`, at index 4, that starts with `d` and has no `d` in its last
      four characters cannot overlap itself: no occurrence straddles the start of another. */
  lemma NoSelfOverlap(y: string, p: nat, base: string)
    requires |base| >= 5 && base[0] == 'd' && base[4] == 'v'
    requires forall k :: 0 <= k < |base| && k != 4 ==> base[k] != 'v'
    requires forall k :: |base| - 4 <= k < |base| ==> base[k] != 'd'
    requires OccursAt(y, base, p)
    ensures NoStraddle(y, base, p)
  {
    var w := y[p..p + |base|];
    assert y[p + 4] == w[4] && y[p] == w[0];
    forall j: nat | j < p < j + |base| ensures !OccursAt(y, base, j) {
      if p - j < |base| - 4 {
        Mismatch(y, base, j, p - j + 4);
      } else {
        Mismatch(y, base, j, p - j);
      }
    }
  }

  /** A text shorter than `base` and ending in a `g` that `base` lacks passes through
      replacement of `base` untouched. */
  lemma ShortTextSurvives(z: string, base: string, grown: string, extra: string)
    requires Lacks(base, 'g') && 0 < |extra| < |base| && extra[|extra| - 1] == 'g'
    requires StartsWith(z, extra)
    ensures ReplaceAll(z, base, grown) == extra + ReplaceAll(z[|extra|..], base, grown)
  {
    assert z[|extra| - 1] == extra[|extra| - 1];
    forall j: nat | j < |extra| < j + |base| ensures !OccursAt(z, base, j) {
      Mismatch(z, base, j, |extra| - 1 - j);
    }
    ReplaceSplit(z, base, grown, |extra|);
    assert z[..|extra|] == extra;
  }

  /** Replacing `base` by `base + extra` where `base + extra` already stands replaces that
      `base` and leaves `extra` after it, so `extra` then stands twice. */
  lemma ReplaceExtendsAgain(y: string, p: nat, base: string, extra: string)
    requires |base| >= 5 && base[0] == 'd' && base[4] == 'v'
    requires forall k :: 0 <= k < |base| && k != 4 ==> base[k] != 'v'
    requires forall k :: |base| - 4 <= k < |base| ==> base[k] != 'd'
    requires Lacks(base, 'g') && 0 < |extra| < |base| && extra[|extra| - 1] == 'g'
    requires OccursAt(y, base + extra, p)
    ensures Contains(ReplaceAll(y, base, base + extra), base + extra + extra)
  {
    var grown := base + extra;
    assert grown[..|base|] == base;
    OccursPrefix(y, grown, base, p);
    NoSelfOverlap(y, p, base);
    ReplaceAtOccurrence(y, base, grown, p);
    var z := y[p + |base|..];
    assert z[..|extra|] == y[p..p + |grown|][|base|..] == extra;
    ShortTextSurvives(z, base, grown, extra);
    OccursAcross(ReplaceAll(y[..p], base, grown), grown, extra, ReplaceAll(z[|extra|..], base, grown));
  }

  /** Where the text offers the new `verify_password`, patching it again appends a
      second `optional_verify_password` there. */
  lemma VerifyStepDoubles(y: string, p: nat)
    requires OccursAt(y, NewVerify, p)
    ensures Contains(PatchVerify(y), NewVerify + OptionalVerify)
  {
    OldVerifyLetters();
    OptionalLetters();
    ReplaceExtendsAgain(y, p, OldVerify, OptionalVerify);
  }
}
