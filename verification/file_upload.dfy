/**
 * The rules of the upload service (lib/services/file-upload.ts): file
 * validation, the stored name and path of an upload, the icon shown for a
 * MIME type, and who may delete an upload. Disk, database and id
 * generation are parameters.
 */
module FileUpload {
  import opened Text
  import opened Records

  /** 10 MiB. */
  const MaxFileSize: nat := 10 * 1024 * 1024

  /** The eleven MIME types an upload may have. */
  const AllowedTypes: seq<string> := [
    "image/jpeg",
    "image/png",
    "image/gif",
    "image/webp",
    "application/pdf",
    "application/msword",
    "application/vnd.openxmlformats-officedocument.wordprocessingml.document",
    "application/vnd.ms-excel",
    "application/vnd.openxmlformats-officedocument.spreadsheetml.sheet",
    "text/plain",
    "text/csv"
  ]

  /** What validation and naming read of an uploaded file. */
  datatype UploadedFile = UploadedFile(name: string, size: nat, mimeType: string)

  /** The limit as the size message writes it, in whole MiB. */
  const SizeMessage: string := "File size exceeds maximum limit of 10MB"
  const NameMessage: string := "Invalid file name"

  /** The type rejection message, which quotes the rejected type. */
  function TypeMessage(mimeType: string): (message: string)
    ensures StartsWith(message, "File type " + mimeType) && EndsWith(message, " is not allowed")
    ensures |message| == 10 + |mimeType| + 15
  {
    "File type " + mimeType + " is not allowed"
  }

  /** The name check: no "..", no "/" and no "\". */
  predicate SafeName(name: string)
  {
    !Contains(name, "..") && !Contains(name, "/") && !Contains(name, "\\")
  }

  /**
   * `validateFile`: None when the file passes, otherwise the message of
   * the first failing check, in the order size, type, name.
   */
  function ValidateFile(file: UploadedFile): (error: Option<string>)
    ensures error.None? <==> file.size <= MaxFileSize && file.mimeType in AllowedTypes && SafeName(file.name)
    ensures file.size > MaxFileSize ==> error == Some(SizeMessage)
    ensures file.size <= MaxFileSize && file.mimeType !in AllowedTypes ==> error == Some(TypeMessage(file.mimeType))
    ensures file.size <= MaxFileSize && file.mimeType in AllowedTypes && !SafeName(file.name) ==> error == Some(NameMessage)
  {
    if file.size > MaxFileSize then Some(SizeMessage)
    else if file.mimeType !in AllowedTypes then Some(TypeMessage(file.mimeType))
    else if !SafeName(file.name) then Some(NameMessage)
    else None
  }

  /** The limit in the size message is the byte limit divided by 1024 twice. */
  lemma SizeMessageStatesLimit()
    ensures MaxFileSize / 1024 / 1024 == 10
    ensures SizeMessage == "File size exceeds maximum limit of " + NatToString(10) + "MB"
  {
  }

  /** A name passes the name check exactly when no ".." occurs in it and it holds neither separator. */
  lemma SafeNameMeansNoTraversal(name: string)
    ensures SafeName(name) <==>
      (forall i :: !OccursAt(name, "..", i)) && '/' !in name && '\\' !in name
  {
    ContainsAt(name, "..");
    ContainsChar(name, '/');
    ContainsChar(name, '\\');
    assert "/" == ['/'] && "\\" == ['\\'];
  }

  /** The three messages differ, so the message names the check that failed. */
  lemma MessagesIdentifyCheck(mimeType: string)
    ensures SizeMessage != TypeMessage(mimeType)
    ensures SizeMessage != NameMessage && TypeMessage(mimeType) != NameMessage
  {
    assert SizeMessage[5] == 's' && TypeMessage(mimeType)[5] == 't';
    assert NameMessage[0] == 'I' && TypeMessage(mimeType)[0] == 'F';
  }

  /** A file of exactly 10 MiB passes the size check; one byte more fails it. */
  lemma SizeBoundary(name: string, mimeType: string)
    ensures ValidateFile(UploadedFile(name, MaxFileSize, mimeType)) != Some(SizeMessage)
    ensures ValidateFile(UploadedFile(name, MaxFileSize + 1, mimeType)) == Some(SizeMessage)
  {
    MessagesIdentifyCheck(mimeType);
  }

  // ---------------------------------------------------------------------
  // Stored name and path

  /** `name.split(".").pop()`: the text after the last ".", or the whole name when it has none. */
  function Extension(name: string): (ext: string)
    ensures '.' !in ext
    ensures |ext| <= |name| && name[|name| - |ext|..] == ext
    ensures '.' !in name ==> ext == name
    ensures '.' in name ==> |ext| < |name| && name[|name| - |ext| - 1] == '.'
  {
    var parts := Split(name, '.');
    LastPiece(name, '.');
    parts[|parts| - 1]
  }

  /** The last piece of a split is a suffix, preceded by the separator when there is one. */
  lemma {:induction false} LastPiece(s: string, sep: char)
    ensures var parts := Split(s, sep); var last := parts[|parts| - 1];
      && |last| <= |s| && s[|s| - |last|..] == last
      && (sep !in s ==> last == s)
      && (sep in s ==> |last| < |s| && s[|s| - |last| - 1] == sep)
  {
    if |s| > 0 {
      var tail := s[1..];
      LastPiece(tail, sep);
      LastPieceStep(s, sep);
      var rest := Split(tail, sep);
      var last := rest[|rest| - 1];
      if s[0] == sep || sep in tail {
        SuffixOfTail(s, last);
        if sep in tail {
          assert tail[|tail| - |last| - 1] == s[|s| - |last| - 1];
        }
      } else {
        assert sep !in s by {
          assert s == [s[0]] + tail;
        }
      }
    }
  }

  /** A suffix of the tail of a string is a suffix of the string. */
  lemma SuffixOfTail(s: string, p: string)
    requires |s| > 0 && |p| <= |s| - 1 && s[1..][|s| - 1 - |p|..] == p
    ensures s[|s| - |p|..] == p
  {
    assert s[1..][|s| - 1 - |p|..] == s[|s| - |p|..];
  }

  /** How the last piece of a split relates to the last piece of the split of the tail. */
  lemma {:induction false} LastPieceStep(s: string, sep: char)
    requires |s| > 0
    ensures var parts, rest := Split(s, sep), Split(s[1..], sep);
      && (s[0] == sep || sep in s[1..] ==> parts[|parts| - 1] == rest[|rest| - 1])
      && (s[0] != sep && sep !in s[1..] ==> parts[|parts| - 1] == s)
  {
    var parts, rest := Split(s, sep), Split(s[1..], sep);
    if s[0] == sep {
      assert parts == [""] + rest;
    } else if sep in s[1..] {
      assert |rest| > 1 by {
        assert Occurrences(s[1..], sep) != 0;
      }
      assert parts == [[s[0]] + rest[0]] + rest[1..];
      assert parts[|parts| - 1] == rest[1..][|rest| - 2];
    } else {
      SplitNone(s[1..], sep);
      assert parts == [[s[0]] + s[1..]];
      assert [s[0]] + s[1..] == s;
    }
  }

  /** The name an upload is stored under: a fresh id, ".", and the extension. */
  function StoredName(id: string, name: string): (stored: string)
    ensures |stored| > |id| && stored[..|id|] == id && stored[|id|] == '.'
    ensures stored[|id| + 1..] == Extension(name)
  {
    id + "." + Extension(name)
  }

  /** `join("uploads", stored)` for a stored name without separators or "..". */
  function StoredPath(stored: string): (path: string)
    ensures |path| >= 8 && path[..8] == "uploads/" && path[8..] == stored
  {
    "uploads/" + stored
  }

  /** The stored name keeps the original extension: its own extension is that of the original name. */
  lemma StoredNameKeepsExtension(id: string, name: string)
    ensures Extension(StoredName(id, name)) == Extension(name)
  {
    var ext := Extension(name);
    var stored := StoredName(id, name);
    var got := Extension(stored);
    assert stored == (id + ".") + ext;
    assert stored[|stored| - |ext|..] == ext;
    assert stored[|stored| - |ext| - 1] == '.';
    assert '.' in stored;
  }

  // ---------------------------------------------------------------------
  // Icons

  const ImageIcon: string := "\U{1F5BC}\U{FE0F}"
  const DocumentIcon: string := "\U{1F4C4}"
  const WordIcon: string := "\U{1F4DD}"
  const SheetIcon: string := "\U{1F4CA}"
  const DefaultIcon: string := "\U{1F4CE}"

  /**
   * `getFileIcon`: the first rule that matches decides: an "image/" type,
   * exactly "application/pdf", a type containing "word", one containing
   * "excel" or "spreadsheet", a "text/" type; anything else gets the clip.
   */
  function FileIcon(mimeType: string): (icon: string)
    ensures icon == ImageIcon <==> StartsWith(mimeType, "image/")
    ensures icon == DocumentIcon <==>
      !StartsWith(mimeType, "image/")
      && (mimeType == "application/pdf"
          || (!Contains(mimeType, "word") && !Contains(mimeType, "excel") && !Contains(mimeType, "spreadsheet")
              && StartsWith(mimeType, "text/")))
    ensures icon == WordIcon <==>
      !StartsWith(mimeType, "image/") && mimeType != "application/pdf" && Contains(mimeType, "word")
    ensures icon == SheetIcon <==>
      !StartsWith(mimeType, "image/") && mimeType != "application/pdf" && !Contains(mimeType, "word")
      && (Contains(mimeType, "excel") || Contains(mimeType, "spreadsheet"))
    ensures icon == DefaultIcon <==>
      !StartsWith(mimeType, "image/") && mimeType != "application/pdf" && !Contains(mimeType, "word")
      && !Contains(mimeType, "excel") && !Contains(mimeType, "spreadsheet") && !StartsWith(mimeType, "text/")
  {
    if StartsWith(mimeType, "image/") then ImageIcon
    else if mimeType == "application/pdf" then DocumentIcon
    else if Contains(mimeType, "word") then WordIcon
    else if Contains(mimeType, "excel") || Contains(mimeType, "spreadsheet") then SheetIcon
    else if StartsWith(mimeType, "text/") then DocumentIcon
    else DefaultIcon
  }

  /** A type containing `sub` at index `i`, where `sub` is one of the icon rules' words, does not get the clip. */
  lemma KeywordGivesIcon(mimeType: string, sub: string, i: nat)
    requires sub == "word" || sub == "excel" || sub == "spreadsheet"
    requires OccursAt(mimeType, sub, i)
    ensures FileIcon(mimeType) != DefaultIcon
  {
    ContainsAt(mimeType, sub);
  }

  /** The legacy Word type contains "word". */
  lemma MswordIcon(mimeType: string)
    requires mimeType == "application/msword"
    ensures FileIcon(mimeType) != DefaultIcon
  {
    assert mimeType[14] == 'w' && mimeType[15] == 'o' && mimeType[16] == 'r' && mimeType[17] == 'd';
    assert mimeType[14..18] == "word";
    KeywordGivesIcon(mimeType, "word", 14);
  }

  /** The Office Open XML document type contains "word". */
  lemma WordprocessingIcon(mimeType: string)
    requires mimeType == "application/vnd.openxmlformats-officedocument.wordprocessingml.document"
    ensures FileIcon(mimeType) != DefaultIcon
  {
    assert mimeType[46] == 'w' && mimeType[47] == 'o' && mimeType[48] == 'r' && mimeType[49] == 'd';
    assert mimeType[46..50] == "word";
    KeywordGivesIcon(mimeType, "word", 46);
  }

  /** The legacy Excel type contains "excel". */
  lemma MsExcelIcon(mimeType: string)
    requires mimeType == "application/vnd.ms-excel"
    ensures FileIcon(mimeType) != DefaultIcon
  {
    assert mimeType[19] == 'e' && mimeType[20] == 'x' && mimeType[21] == 'c' && mimeType[22] == 'e' && mimeType[23] == 'l';
    assert mimeType[19..24] == "excel";
    KeywordGivesIcon(mimeType, "excel", 19);
  }

  /** The Office Open XML workbook type contains "spreadsheet". */
  lemma SpreadsheetIcon(mimeType: string)
    requires mimeType == "application/vnd.openxmlformats-officedocument.spreadsheetml.sheet"
    ensures FileIcon(mimeType) != DefaultIcon
  {
    assert mimeType[46] == 's' && mimeType[47] == 'p' && mimeType[48] == 'r' && mimeType[49] == 'e' && mimeType[50] == 'a' && mimeType[51] == 'd';
    assert mimeType[52] == 's' && mimeType[53] == 'h' && mimeType[54] == 'e' && mimeType[55] == 'e' && mimeType[56] == 't';
    assert mimeType[46..57] == "spreadsheet";
    KeywordGivesIcon(mimeType, "spreadsheet", 46);
  }

  /** Every type an upload may have gets an icon of its own, never the clip. */
  lemma AllowedTypesHaveIcons(mimeType: string)
    requires mimeType in AllowedTypes
    ensures FileIcon(mimeType) != DefaultIcon
  {
    var k :| 0 <= k < |AllowedTypes| && AllowedTypes[k] == mimeType;
    if k <= 3 {
      assert mimeType[..6] == "image/";
    } else if k == 4 {
    } else if k == 5 {
      MswordIcon(mimeType);
    } else if k == 6 {
      WordprocessingIcon(mimeType);
    } else if k == 7 {
      MsExcelIcon(mimeType);
    } else if k == 8 {
      SpreadsheetIcon(mimeType);
    } else {
      assert mimeType[..5] == "text/";
    }
  }

  // ---------------------------------------------------------------------
  // Deletion

  /** What deletion reads of a stored upload. */
  datatype FileRecord = FileRecord(id: string, uploaded_by: string)

  /** The owner-or-admin rule: the uploader, or a caller whose profile role is ADMIN. */
  predicate MayDelete(file: FileRecord, userId: string, role: Option<UserRole>): (may: bool)
    ensures file.uploaded_by == userId ==> may
    ensures role == Some(ADMIN) ==> may
    ensures may && role != Some(ADMIN) ==> file.uploaded_by == userId
  {
    file.uploaded_by == userId || role == Some(ADMIN)
  }

  /**
   * `deleteFile`, given what the database returns: the fetched upload
   * (None when the fetch failed or found nothing), the caller's profile
   * role, and the error the delete statement would report. Answers
   * whether the delete statement is issued and how the call ends.
   */
  function DeleteFile(fetched: Option<FileRecord>, userId: string, role: Option<UserRole>,
                      deleteError: Option<string>): (r: (bool, Result<string>))
    ensures r.0 <==> fetched.Some? && MayDelete(fetched.value, userId, role)
    ensures fetched.None? ==> r.1 == Err("File not found")
    ensures fetched.Some? && !MayDelete(fetched.value, userId, role) ==> r.1 == Err("Unauthorized to delete this file")
    ensures r.1.Ok? <==> r.0 && deleteError.None?
    ensures r.1.Ok? ==> r.1.value == fetched.value.id
    ensures r.0 && deleteError.Some? ==> r.1 == Err("Database error: " + deleteError.value)
  {
    if fetched.None? then (false, Err("File not found"))
    else if !MayDelete(fetched.value, userId, role) then (false, Err("Unauthorized to delete this file"))
    else if deleteError.Some? then (true, Err("Database error: " + deleteError.value))
    else (true, Ok(fetched.value.id))
  }

  /** A caller who neither uploaded the file nor is an admin never reaches the delete statement. */
  lemma OnlyOwnerOrAdminDeletes(file: FileRecord, userId: string, role: Option<UserRole>, deleteError: Option<string>)
    requires DeleteFile(Some(file), userId, role, deleteError).0
    ensures file.uploaded_by == userId || role == Some(ADMIN)
  {
  }
}
