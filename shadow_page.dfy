/** The shadow console's identity card: a display name and an optional photo URL, kept in
    the browser's storage, edited through a form that trims what was typed, and shown as an
    upper-cased code name and as initials. Storage is a map from keys to strings; the
    status message's clearing timer is an event the environment may deliver later. */
module ShadowPage {
  import opened Common

  const NAME_KEY := "era-shadow-display-name"
  const PHOTO_KEY := "era-shadow-photo-url"
  const SAVED_STATUS := "Identity updated in this console."
  const UNKNOWN_AGENT := "UNKNOWN AGENT"
  const FALLBACK_INITIALS := "EA"

  // ---------------------------------------------------------------------------
  // Storage

  /** `localStorage.getItem(key)` as the page tests it: a missing or empty entry is falsy. */
  function Stored(storage: map<string, string>, key: string): (r: Option<string>)
    ensures r.Some? <==> key in storage && storage[key] != ""
    ensures r.Some? ==> r.value == storage[key]
  {
    if key in storage && storage[key] != "" then Some(storage[key]) else None
  }

  /** `removeItem(key)` for an empty value, `setItem(key, value)` otherwise. */
  function StoreOrRemove(storage: map<string, string>, key: string, value: string): (r: map<string, string>)
    ensures value == "" ==> key !in r
    ensures value != "" ==> key in r && r[key] == value
    ensures forall k :: k != key ==> (k in r <==> k in storage)
    ensures forall k :: k != key && k in r ==> r[k] == storage[k]
  {
    if value == "" then storage - {key} else storage[key := value]
  }

  /** The photo a trimmed input stands for: none when it is empty. */
  function PhotoOrNull(trimmed: string): (r: Option<string>)
    ensures r.None? <==> trimmed == ""
    ensures trimmed != "" ==> r == Some(trimmed)
  {
    if trimmed == "" then None else Some(trimmed)
  }

  /** `photoUrl || ""` */
  function PhotoOrEmpty(photoUrl: Option<string>): string {
    match photoUrl
    case Some(u) => u
    case None => ""
  }

  /** The storage after a save of the two trimmed inputs. */
  function SavedStorage(storage: map<string, string>, trimmedName: string, trimmedPhoto: string): map<string, string> {
    StoreOrRemove(StoreOrRemove(storage, NAME_KEY, trimmedName), PHOTO_KEY, trimmedPhoto)
  }

  /** The display name a fresh page shows after loading `storage`. */
  function LoadedName(storage: map<string, string>): string {
    match Stored(storage, NAME_KEY)
    case Some(v) => v
    case None => ""
  }

  /** The photo a fresh page shows after loading `storage`. */
  function LoadedPhoto(storage: map<string, string>): Option<string> {
    Stored(storage, PHOTO_KEY)
  }

  /** A save survives a reload: a fresh page that loads the saved storage shows the saved
      name (or none) and the saved photo (or none), and other keys are untouched. */
  lemma {:induction false} ReloadRestoresIdentity(storage: map<string, string>, inputName: string, inputPhotoUrl: string)
    ensures LoadedName(SavedStorage(storage, Trim(inputName), Trim(inputPhotoUrl))) == Trim(inputName)
    ensures LoadedPhoto(SavedStorage(storage, Trim(inputName), Trim(inputPhotoUrl))) == PhotoOrNull(Trim(inputPhotoUrl))
    ensures forall k :: k != NAME_KEY && k != PHOTO_KEY ==>
              (k in SavedStorage(storage, Trim(inputName), Trim(inputPhotoUrl)) <==> k in storage)
  {
    var n, p := Trim(inputName), Trim(inputPhotoUrl);
    var s1 := StoreOrRemove(storage, NAME_KEY, n);
    var s2 := StoreOrRemove(s1, PHOTO_KEY, p);
    assert NAME_KEY != PHOTO_KEY by {
      assert NAME_KEY[13] != PHOTO_KEY[13];
    }
    assert NAME_KEY in s2 <==> NAME_KEY in s1;
    if n != "" {
      assert s2[NAME_KEY] == n;
    }
  }

  // ---------------------------------------------------------------------------
  // Code name and initials

  /** `(displayName || "UNKNOWN AGENT").toUpperCase()` */
  function CodenameLabel(displayName: string): string {
    Upper(if displayName != "" then displayName else UNKNOWN_AGENT)
  }

  /** The code name is the upper-cased display name, character by character, and
      "UNKNOWN AGENT" when no name is set; it never holds a lower-case ASCII letter. */
  lemma {:induction false} CodenameLabelExact(displayName: string)
    ensures displayName == "" ==> CodenameLabel(displayName) == UNKNOWN_AGENT
    ensures displayName != "" ==>
              |CodenameLabel(displayName)| == |displayName| &&
              forall i :: 0 <= i < |displayName| ==> CodenameLabel(displayName)[i] == UpperChar(displayName[i])
    ensures forall i :: 0 <= i < |CodenameLabel(displayName)| ==> !IsLowerAscii(CodenameLabel(displayName)[i])
  {
    UpperHasNoLowerCase(if displayName != "" then displayName else UNKNOWN_AGENT);
    if displayName == "" {
      assert forall i :: 0 <= i < |UNKNOWN_AGENT| ==> !IsLowerAscii(UNKNOWN_AGENT[i]);
      UpperKeepsUpperCase(UNKNOWN_AGENT);
    }
  }

  /** Upper-casing a string with no lower-case ASCII letter leaves it as it is. */
  lemma {:induction false} UpperKeepsUpperCase(s: string)
    requires forall i :: 0 <= i < |s| ==> !IsLowerAscii(s[i])
    ensures Upper(s) == s
  {
    var r := Upper(s);
    assert forall i :: 0 <= i < |s| ==> r[i] == s[i];
  }

  /** The position of the first white-space character, if any. */
  function FirstSpace(s: string): (r: Option<nat>)
    ensures r.None? ==> forall i :: 0 <= i < |s| ==> !IsSpace(s[i])
    ensures r.Some? ==> r.value < |s| && IsSpace(s[r.value]) && forall i :: 0 <= i < r.value ==> !IsSpace(s[i])
  {
    if s == [] then None
    else if IsSpace(s[0]) then Some(0)
    else match FirstSpace(s[1..])
      case None => None
      case Some(i) => Some(i + 1)
  }

  /** `s.split(/\s+/)`: the pieces between runs of white space, with an empty first piece
      when `s` starts with white space and an empty last one when it ends with it. */
  function SplitOnWhitespace(s: string): (r: seq<string>)
    ensures |r| >= 1
    decreases |s|
  {
    match FirstSpace(s)
    case None => [s]
    case Some(i) =>
      var rest := s[i..];
      [s[..i]] + SplitOnWhitespace(rest[LeadingSpaces(rest)..])
  }

  /** `.map((s) => s[0]?.toUpperCase()).join("")`: the upper-cased first character of every
      piece, an empty piece contributing nothing. */
  function FirstLetters(words: seq<string>): string {
    if words == [] then ""
    else (if words[0] == "" then "" else [UpperChar(words[0][0])]) + FirstLetters(words[1..])
  }

  /** `initials`: the first letters of the trimmed name's words, or "EA" when there are none. */
  function Initials(displayName: string): string {
    var letters := FirstLetters(SplitOnWhitespace(Trim(displayName)));
    if letters != "" then letters else FALLBACK_INITIALS
  }

  /** No piece of a split holds white space. */
  lemma {:induction false} WordsHaveNoSpace(s: string)
    ensures forall k, j :: 0 <= k < |SplitOnWhitespace(s)| && 0 <= j < |SplitOnWhitespace(s)[k]| ==>
              !IsSpace(SplitOnWhitespace(s)[k][j])
    decreases |s|
  {
    match FirstSpace(s)
    case None =>
    case Some(i) =>
      var rest := s[i..];
      WordsHaveNoSpace(rest[LeadingSpaces(rest)..]);
  }

  /** Words put back together with the white-space runs between them. */
  function Interleave(words: seq<string>, gaps: seq<string>): string
    requires |words| == |gaps| + 1
    decreases |gaps|
  {
    if gaps == [] then words[0] else words[0] + gaps[0] + Interleave(words[1..], gaps[1..])
  }

  predicate AllSpace(g: string) {
    forall i :: 0 <= i < |g| ==> IsSpace(g[i])
  }

  lemma InterleaveCons(w: string, g: string, words: seq<string>, gaps: seq<string>)
    requires |words| == |gaps| + 1
    ensures Interleave([w] + words, [g] + gaps) == w + g + Interleave(words, gaps)
  {
    assert ([w] + words)[1..] == words && ([g] + gaps)[1..] == gaps;
  }

  /** One step of the split: the first word, then a non-empty run of white space, then the
      rest of the string, which is split in turn. */
  lemma SplitStep(s: string, i: nat)
    requires FirstSpace(s) == Some(i)
    ensures var rest := s[i..];
            var n := LeadingSpaces(rest);
            && 0 < n && AllSpace(rest[..n])
            && SplitOnWhitespace(s) == [s[..i]] + SplitOnWhitespace(rest[n..])
            && s == s[..i] + rest[..n] + rest[n..]
  {
    assert s[i..][0] == s[i];
  }

  /** The split loses only the white space: there are runs of white space, one between each
      two words and none of them empty, that put the words back together into `s`. */
  lemma {:induction false} SplitRebuilds(s: string) returns (gaps: seq<string>)
    ensures |gaps| + 1 == |SplitOnWhitespace(s)|
    ensures forall k :: 0 <= k < |gaps| ==> gaps[k] != [] && AllSpace(gaps[k])
    ensures Interleave(SplitOnWhitespace(s), gaps) == s
    decreases |s|
  {
    match FirstSpace(s)
    case None =>
      gaps := [];
    case Some(i) =>
      SplitStep(s, i);
      var rest := s[i..];
      var n := LeadingSpaces(rest);
      var more := SplitRebuilds(rest[n..]);
      gaps := [rest[..n]] + more;
      InterleaveCons(s[..i], rest[..n], SplitOnWhitespace(rest[n..]), more);
  }

  /** A string that neither starts nor ends with white space and is not empty splits into
      non-empty words. */
  lemma {:induction false} TrimmedWordsNonEmpty(s: string)
    requires s != [] && !IsSpace(s[0]) && !IsSpace(s[|s| - 1])
    ensures forall k :: 0 <= k < |SplitOnWhitespace(s)| ==> SplitOnWhitespace(s)[k] != []
    decreases |s|
  {
    match FirstSpace(s)
    case None =>
    case Some(i) =>
      var rest := s[i..];
      var n := LeadingSpaces(rest);
      var tail := rest[n..];
      assert i > 0;
      assert tail[0] == rest[n] && tail[|tail| - 1] == s[|s| - 1];
      TrimmedWordsNonEmpty(tail);
      assert SplitOnWhitespace(s) == [s[..i]] + SplitOnWhitespace(tail);
  }

  /** With no empty word, there is one letter per word: its upper-cased first character. */
  lemma {:induction false} FirstLettersOfWords(words: seq<string>)
    requires forall k :: 0 <= k < |words| ==> words[k] != []
    ensures |FirstLetters(words)| == |words|
    ensures forall k :: 0 <= k < |words| ==> FirstLetters(words)[k] == UpperChar(words[k][0])
  {
    if words != [] {
      FirstLettersOfWords(words[1..]);
      assert FirstLetters(words) == [UpperChar(words[0][0])] + FirstLetters(words[1..]);
    }
  }

  /** A blank name has the initials "EA"; any other name has one initial per word of the
      trimmed name, each the word's upper-cased first character, the words holding no white
      space. */
  lemma {:induction false} InitialsExact(displayName: string)
    ensures IsBlank(displayName) ==> Initials(displayName) == FALLBACK_INITIALS
    ensures !IsBlank(displayName) ==>
              var words := SplitOnWhitespace(Trim(displayName));
              && |Initials(displayName)| == |words|
              && (forall k :: 0 <= k < |words| ==>
                    words[k] != [] && Initials(displayName)[k] == UpperChar(words[k][0]))
              && (forall k, j :: 0 <= k < |words| && 0 <= j < |words[k]| ==> !IsSpace(words[k][j]))
  {
    var t := Trim(displayName);
    TrimExact(displayName);
    var words := SplitOnWhitespace(t);
    if t == [] {
      assert FirstSpace(t) == None;
      assert words == [[]];
      assert FirstLetters(words) == "" + FirstLetters([]);
    } else {
      TrimmedWordsNonEmpty(t);
      FirstLettersOfWords(words);
      WordsHaveNoSpace(t);
    }
  }

  // ---------------------------------------------------------------------------
  // The page

  /** The page's state and the browser storage it reads and writes. */
  class Identity {
    var displayName: string
    var photoUrl: Option<string>
    var inputName: string
    var inputPhotoUrl: string
    var statusMessage: string
    var editingIdentity: bool
    var storage: map<string, string>
    var pendingStatusClears: nat

    constructor (storage: map<string, string>)
      ensures displayName == "" && photoUrl == None && inputName == "" && inputPhotoUrl == ""
      ensures statusMessage == "" && !editingIdentity && pendingStatusClears == 0
      ensures this.storage == storage
    {
      displayName, photoUrl := "", None;
      inputName, inputPhotoUrl := "", "";
      statusMessage, editingIdentity := "", false;
      this.storage, pendingStatusClears := storage, 0;
    }

    /** The first-render effect: a stored name and a stored photo, when present and not
        empty, become both the shown value and the input's value. */
    method Load()
      modifies this`displayName, this`inputName, this`photoUrl, this`inputPhotoUrl
      ensures Stored(storage, NAME_KEY).Some? ==>
                displayName == Stored(storage, NAME_KEY).value && inputName == displayName
      ensures Stored(storage, NAME_KEY).None? ==> displayName == old(displayName) && inputName == old(inputName)
      ensures Stored(storage, PHOTO_KEY).Some? ==>
                photoUrl == Stored(storage, PHOTO_KEY) && inputPhotoUrl == Stored(storage, PHOTO_KEY).value
      ensures Stored(storage, PHOTO_KEY).None? ==> photoUrl == old(photoUrl) && inputPhotoUrl == old(inputPhotoUrl)
    {
      var storedName := Stored(storage, NAME_KEY);
      var storedPhoto := Stored(storage, PHOTO_KEY);
      if storedName.Some? {
        displayName := storedName.value;
        inputName := storedName.value;
      }
      if storedPhoto.Some? {
        photoUrl := storedPhoto;
        inputPhotoUrl := storedPhoto.value;
      }
    }

    /** `handleSaveIdentity`: the trimmed name is stored and shown, or removed and cleared
        when it is empty; the same for the trimmed photo URL, cleared to null; then the
        status message is set, the form is hidden and the message's clearing is scheduled. */
    method HandleSaveIdentity()
      modifies this`storage, this`displayName, this`photoUrl, this`statusMessage,
               this`editingIdentity, this`pendingStatusClears
      ensures displayName == Trim(old(inputName))
      ensures displayName == "" <==> IsBlank(old(inputName))
      ensures photoUrl == PhotoOrNull(Trim(old(inputPhotoUrl)))
      ensures storage == SavedStorage(old(storage), Trim(old(inputName)), Trim(old(inputPhotoUrl)))
      ensures statusMessage == SAVED_STATUS && !editingIdentity
      ensures pendingStatusClears == old(pendingStatusClears) + 1
    {
      var trimmedName := Trim(inputName);
      var trimmedPhoto := Trim(inputPhotoUrl);
      TrimEmptyIffBlank(inputName);
      SaveName(trimmedName);
      SavePhoto(trimmedPhoto);
      statusMessage := SAVED_STATUS;
      editingIdentity := false;
      pendingStatusClears := pendingStatusClears + 1;
    }

    /** The name half of the save. */
    method SaveName(trimmedName: string)
      modifies this`storage, this`displayName
      ensures storage == StoreOrRemove(old(storage), NAME_KEY, trimmedName)
      ensures displayName == trimmedName
    {
      if trimmedName == "" {
        storage := storage - {NAME_KEY};
        displayName := "";
      } else {
        storage := storage[NAME_KEY := trimmedName];
        displayName := trimmedName;
      }
    }

    /** The photo half of the save. */
    method SavePhoto(trimmedPhoto: string)
      modifies this`storage, this`photoUrl
      ensures storage == StoreOrRemove(old(storage), PHOTO_KEY, trimmedPhoto)
      ensures photoUrl == PhotoOrNull(trimmedPhoto)
    {
      if trimmedPhoto == "" {
        storage := storage - {PHOTO_KEY};
        photoUrl := None;
      } else {
        storage := storage[PHOTO_KEY := trimmedPhoto];
        photoUrl := Some(trimmedPhoto);
      }
    }

    /** The scheduled clearing of the status message fires. */
    method StatusTimerFires()
      requires pendingStatusClears > 0
      modifies this`statusMessage, this`pendingStatusClears
      ensures statusMessage == "" && pendingStatusClears == old(pendingStatusClears) - 1
    {
      statusMessage := "";
      pendingStatusClears := pendingStatusClears - 1;
    }

    /** The edit button shows or hides the form. */
    method ToggleEditing()
      modifies this`editingIdentity
      ensures editingIdentity == !old(editingIdentity)
    {
      editingIdentity := !editingIdentity;
    }

    /** The Cancel button: the form is hidden and the inputs go back to the saved name and
        photo URL ("" for no photo). */
    method CancelEdit()
      modifies this`editingIdentity, this`inputName, this`inputPhotoUrl
      ensures !editingIdentity && inputName == displayName && inputPhotoUrl == PhotoOrEmpty(photoUrl)
    {
      editingIdentity := false;
      inputName := displayName;
      inputPhotoUrl := PhotoOrEmpty(photoUrl);
    }

    /** The name input's `onChange`. */
    method TypeName(value: string)
      modifies this`inputName
      ensures inputName == value
    {
      inputName := value;
    }

    /** The photo URL input's `onChange`. */
    method TypePhotoUrl(value: string)
      modifies this`inputPhotoUrl
      ensures inputPhotoUrl == value
    {
      inputPhotoUrl := value;
    }
  }
}
