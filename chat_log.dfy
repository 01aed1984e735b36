/** The chatbot's message log: a list of messages kept as one encrypted entry of the device's
    key-value store, under a module-level key that can be changed. The cipher is ideal: a text
    decrypts to what was sealed under the same key, and to nothing under any other key. */
module ChatLog {
  import opened Wrappers

  datatype Sender = User | Bot

  datatype Message = Message(from: Sender, text: string)

  /** A decrypted text: the JSON of a message list (what `JSON.stringify` writes), or text that
      `JSON.parse` refuses. */
  datatype JsonText = Encoded(messages: seq<Message>) | NotJson(raw: string)

  /** The value of the store entry: a text this module sealed under a key, or any other string
      (which no key decrypts). */
  datatype Cipher = Sealed(plain: JsonText, key: string) | Foreign(raw: string)

  /** What `bytes.toString(CryptoJS.enc.Utf8)` gives: the plain text, or '' when decryption fails. */
  datatype Decrypted = Empty | Plain(text: JsonText)

  const StorageKey := "chatMessages_v1"
  const InitialKey := "eventa-secret-key"

  function Decrypt(c: Cipher, key: string): (d: Decrypted)
    ensures d.Plain? <==> c.Sealed? && c.key == key
    ensures d.Plain? ==> d.text == c.plain
  {
    if c.Sealed? && c.key == key then Plain(c.plain) else Empty
  }

  /** `safeParseJSON(str, fallback)`: the parsed list, or the fallback. */
  function SafeParse(t: JsonText, fallback: seq<Message>): (r: seq<Message>)
    ensures t.Encoded? ==> r == t.messages
    ensures t.NotJson? ==> r == fallback
  {
    match t
    case Encoded(ms) => ms
    case NotJson(_) => fallback
  }

  /** Whether `getMessages` keeps the entry: it is absent, the empty string, or decrypts. */
  predicate Readable(entry: Option<Cipher>, key: string) {
    entry.None? || entry.value == Foreign("") || Decrypt(entry.value, key).Plain?
  }

  /** The list read from an entry under a key, when the read itself does not fail. */
  function Load(entry: Option<Cipher>, key: string): seq<Message> {
    if entry.None? || entry.value == Foreign("") then []
    else match Decrypt(entry.value, key)
      case Empty => []
      case Plain(t) => SafeParse(t, [])
  }

  /** Sealing a list and loading it again under the same key gives the list back. */
  lemma SealLoadRoundTrip(ms: seq<Message>, key: string)
    ensures Readable(Some(Sealed(Encoded(ms), key)), key)
    ensures Load(Some(Sealed(Encoded(ms), key)), key) == ms
  {
  }

  /** Under any other key the sealed list is lost: it loads as the empty list. */
  lemma OtherKeyLoadsNothing(ms: seq<Message>, key: string, other: string)
    requires other != key
    ensures !Readable(Some(Sealed(Encoded(ms), key)), other)
    ensures Load(Some(Sealed(Encoded(ms), key)), other) == []
  {
  }

  class ChatStore {
    /** The module's `encryptionKey`. */
    var encryptionKey: string
    /** The store's entry under `chatMessages_v1`. */
    var stored: Option<Cipher>

    /** The list `getMessages` returns now, when the store's read succeeds. */
    function Messages(): seq<Message>
      reads this
    {
      Load(stored, encryptionKey)
    }

    constructor (initial: Option<Cipher>)
      ensures encryptionKey == InitialKey && stored == initial
    {
      encryptionKey := InitialKey;
      stored := initial;
    }

    /** `getMessages`. `readFails` is a failure of the store's read. An entry that cannot be
        read is removed; whatever happens, the store afterwards holds the list returned. */
    method GetMessages(readFails: bool) returns (ms: seq<Message>)
      modifies this`stored
      ensures ms == (if readFails then [] else old(Messages()))
      ensures Messages() == ms && Readable(stored, encryptionKey)
      ensures !readFails && Readable(old(stored), encryptionKey) ==> stored == old(stored)
      ensures readFails || !Readable(old(stored), encryptionKey) ==> stored == None
    {
      if readFails {
        stored := None;
        return [];
      }
      if stored.None? || stored.value == Foreign("") {
        return [];
      }
      var decrypted := Decrypt(stored.value, encryptionKey);
      if decrypted.Empty? {
        stored := None;
        return [];
      }
      ms := SafeParse(decrypted.text, []);
    }

    /** `saveMessages`. `writeFails` is a failure of the store's write; the result tells
        whether the list was saved. */
    method SaveMessages(ms: seq<Message>, writeFails: bool) returns (ok: bool)
      modifies this`stored
      ensures ok <==> !writeFails
      ensures ok ==> stored == Some(Sealed(Encoded(ms), encryptionKey)) && Messages() == ms
      ensures !ok ==> stored == old(stored)
    {
      if writeFails {
        return false;
      }
      stored := Some(Sealed(Encoded(ms), encryptionKey));
      SealLoadRoundTrip(ms, encryptionKey);
      return true;
    }

    /** `clearMessages`. */
    method ClearMessages()
      modifies this`stored
      ensures stored == None && Messages() == []
    {
      stored := None;
    }

    /** `changeEncryptionKey`: the list is read under the old key and saved under the new one.
        It reports success even when that save fails, and the list is then lost. */
    method ChangeEncryptionKey(newKey: string, readFails: bool, writeFails: bool) returns (ok: bool)
      modifies this
      ensures ok
      ensures encryptionKey == newKey
      ensures !readFails && !writeFails ==> Messages() == old(Messages())
      ensures readFails ==> Messages() == []
      ensures writeFails && newKey != old(encryptionKey) ==> Messages() == []
      ensures !readFails && writeFails && newKey == old(encryptionKey) ==> Messages() == old(Messages())
    {
      var current := GetMessages(readFails);
      encryptionKey := newKey;
      var saved := SaveMessages(current, writeFails);
      return true;
    }

    /** `addUserMessage` and `addBotMessage`: the list read, with one message appended, is saved
        and returned. */
    method AddMessage(from: Sender, text: string, readFails: bool, writeFails: bool) returns (ms: seq<Message>)
      modifies this`stored
      ensures ms == (if readFails then [] else old(Messages())) + [Message(from, text)]
      ensures !writeFails ==> Messages() == ms
      ensures writeFails ==> Messages() == ms[..|ms| - 1]
    {
      var messages := GetMessages(readFails);
      messages := messages + [Message(from, text)];
      var saved := SaveMessages(messages, writeFails);
      ms := messages;
    }

    method AddUserMessage(text: string, readFails: bool, writeFails: bool) returns (ms: seq<Message>)
      modifies this`stored
      ensures ms == (if readFails then [] else old(Messages())) + [Message(User, text)]
      ensures !writeFails ==> Messages() == ms
      ensures writeFails ==> Messages() == ms[..|ms| - 1]
    {
      ms := AddMessage(User, text, readFails, writeFails);
    }

    method AddBotMessage(text: string, readFails: bool, writeFails: bool) returns (ms: seq<Message>)
      modifies this`stored
      ensures ms == (if readFails then [] else old(Messages())) + [Message(Bot, text)]
      ensures !writeFails ==> Messages() == ms
      ensures writeFails ==> Messages() == ms[..|ms| - 1]
    {
      ms := AddMessage(Bot, text, readFails, writeFails);
    }
  }
}
