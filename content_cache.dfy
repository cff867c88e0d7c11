/**
 * The server's OCR cache: recognition results stored under the MD5 digest of
 * the image, with an index from file paths to the digest their bytes had when
 * they were stored. A key of 32 hexadecimal characters is taken to be a
 * digest, any other key a path. Hashing is a function of the bytes, given
 * with the file system as a parameter.
 */
module ContentCache {
  import opened Wrappers
  import opened Text

  /** A stored result: the boxes, the frames, and the digest it is stored under. */
  datatype Entry<B, F> = Entry(boxes: B, frames: F, md5: string)

  /** The files that exist (path to contents) and the hex digest of a byte string. */
  datatype Files = Files(bytes: map<string, seq<bv8>>, digest: seq<bv8> -> string)

  /** A key of `in`, `[]` and `[]=`: a Python `str`, or another object whose `str()` is a path. */
  datatype Key = StrKey(s: string) | PathKey(path: string)

  /** A `__setitem__` value: a tuple of at least two items (those after the second are ignored), or anything else. */
  datatype Value<B, F> = Tuple(boxes: B, frames: F, extra: nat) | NotATuple

  datatype Error = KeyError | ValueError

  /** The abstract state: `cache` and `path_map`. */
  datatype Store<B, F> = Store(cache: map<string, Entry<B, F>>, pathMap: map<string, string>)

  predicate IsHexChar(c: char) {
    '0' <= c <= '9' || 'a' <= c <= 'f'
  }

  /** 32 characters that are hexadecimal digits once lower-cased. */
  predicate IsHexKey(s: string) {
    |s| == 32 && forall k :: 0 <= k < |s| ==> IsHexChar(LowerChar(s[k]))
  }

  /** Lower-casing sends exactly the decimal digits and the letters A-F and a-f to hexadecimal digits. */
  lemma HexCharCaseInsensitive(c: char)
    ensures IsHexChar(LowerChar(c)) <==> IsHexChar(c) || 'A' <= c <= 'F'
  {
  }

  /** A key that picks the digest branch of `in`, `[]` and `[]=`. */
  predicate IsDigestKey(key: Key) {
    key.StrKey? && IsHexKey(key.s)
  }

  /** `str(key)`. */
  function KeyText(key: Key): string {
    match key
    case StrKey(s) => s
    case PathKey(p) => p
  }

  /** Python's truth value of a digest: None and "" are false. */
  predicate Truthy(md5: Option<string>) {
    md5.Some? && md5.value != ""
  }

  /** `md5_from_path`, with a missing file (which raises) as None. */
  function PathMd5(fs: Files, path: string): (r: Option<string>)
    ensures r.Some? <==> path in fs.bytes
  {
    if path in fs.bytes then Some(fs.digest(fs.bytes[path])) else None
  }

  /** `pixmap_md5`: the digest of the image's PNG encoding, None when it cannot be encoded. */
  function PixmapMd5(fs: Files, png: Option<seq<bv8>>): Option<string> {
    match png
    case None => None
    case Some(data) => Some(fs.digest(data))
  }

  /** Every path is bound to a stored digest, and every entry holds the non-empty digest it is stored under. */
  ghost predicate Inv<B, F>(s: Store<B, F>) {
    (forall p :: p in s.pathMap ==> s.pathMap[p] in s.cache) &&
    (forall h :: h in s.cache ==> h != "" && s.cache[h].md5 == h)
  }

  function Cleared<B, F>(): Store<B, F> {
    Store(map[], map[])
  }

  /** `set_by_md5`: an empty digest changes nothing; otherwise the entry is written under it. */
  function SetMd5<B, F>(s: Store<B, F>, md5: string, boxes: B, frames: F): Store<B, F> {
    if md5 == "" then s else s.(cache := s.cache[md5 := Entry(boxes, frames, md5)])
  }

  /** `get_by_md5`. */
  function GetMd5<B, F>(s: Store<B, F>, md5: string): Option<Entry<B, F>> {
    if md5 in s.cache then Some(s.cache[md5]) else None
  }

  /** `set_for_path`: store under the file's current digest and bind the path to it. */
  function SetPath<B, F>(s: Store<B, F>, fs: Files, path: string, boxes: B, frames: F): Store<B, F> {
    var md5 := PathMd5(fs, path);
    if Truthy(md5) then SetMd5(s, md5.value, boxes, frames).(pathMap := s.pathMap[path := md5.value]) else s
  }

  /** `get_for_path`: look up the file's current digest. */
  function GetPath<B, F>(s: Store<B, F>, fs: Files, path: string): Option<Entry<B, F>> {
    var md5 := PathMd5(fs, path);
    if Truthy(md5) then GetMd5(s, md5.value) else None
  }

  /** `set_for_pixmap`. */
  function SetPixmap<B, F>(s: Store<B, F>, md5: Option<string>, boxes: B, frames: F): Store<B, F> {
    if Truthy(md5) then SetMd5(s, md5.value, boxes, frames) else s
  }

  /** `get_for_pixmap`. */
  function GetPixmap<B, F>(s: Store<B, F>, md5: Option<string>): Option<Entry<B, F>> {
    if Truthy(md5) then GetMd5(s, md5.value) else None
  }

  /** `key in cache`. */
  predicate Contains<B, F>(s: Store<B, F>, key: Key) {
    if key == StrKey("") then false
    else if IsDigestKey(key) then key.s in s.cache
    else KeyText(key) in s.pathMap && s.pathMap[KeyText(key)] in s.cache
  }

  /**
   * `cache[key]`: a digest key is looked up directly; a path goes through its
   * binding, else through its current digest, and raises KeyError when it has
   * neither.
   */
  function GetItem<B, F>(s: Store<B, F>, fs: Files, key: Key): Result<Option<Entry<B, F>>, Error> {
    if IsDigestKey(key) then Ok(GetMd5(s, key.s))
    else
      var path := KeyText(key);
      var bound := if path in s.pathMap then Some(s.pathMap[path]) else None;
      if Truthy(bound) then Ok(GetMd5(s, bound.value))
      else
        var md5 := PathMd5(fs, path);
        if Truthy(md5) then Ok(GetMd5(s, md5.value)) else Err(KeyError)
  }

  /**
   * `cache[key] = value`: a value that is no tuple of two raises ValueError; a
   * digest key stores under itself; a path stores under its current digest and
   * is bound to it, and raises ValueError when it has none.
   */
  function SetItem<B, F>(s: Store<B, F>, fs: Files, key: Key, value: Value<B, F>): Result<Store<B, F>, Error> {
    if value.NotATuple? then Err(ValueError)
    else if IsDigestKey(key) then Ok(SetMd5(s, key.s, value.boxes, value.frames))
    else
      var path := KeyText(key);
      var md5 := PathMd5(fs, path);
      if Truthy(md5) then
        Ok(SetMd5(s, md5.value, value.boxes, value.frames).(pathMap := s.pathMap[path := md5.value]))
      else Err(ValueError)
  }

  // ---------------------------------------------------------------------------
  // Properties of the abstract state
  // ---------------------------------------------------------------------------

  /** `get_by_md5(h)` after `set_by_md5(h, b, f)` gives `(b, f, h)`; other digests keep their entries; "" stores nothing. */
  lemma SetGetMd5<B, F>(s: Store<B, F>, h: string, g: string, boxes: B, frames: F)
    ensures h == "" ==> SetMd5(s, h, boxes, frames) == s
    ensures h != "" ==> GetMd5(SetMd5(s, h, boxes, frames), h) == Some(Entry(boxes, frames, h))
    ensures g != h ==> GetMd5(SetMd5(s, h, boxes, frames), g) == GetMd5(s, g)
    ensures SetMd5(s, h, boxes, frames).pathMap == s.pathMap
  {
  }

  lemma ClearedEmpty<B, F>(key: Key)
    ensures Inv(Cleared<B, F>()) && !Contains(Cleared<B, F>(), key)
  {
  }

  /** Every write keeps the invariant. */
  lemma SetMd5Inv<B, F>(s: Store<B, F>, md5: string, boxes: B, frames: F)
    requires Inv(s)
    ensures Inv(SetMd5(s, md5, boxes, frames))
  {
  }

  lemma SetPathInv<B, F>(s: Store<B, F>, fs: Files, path: string, boxes: B, frames: F)
    requires Inv(s)
    ensures Inv(SetPath(s, fs, path, boxes, frames))
  {
    var md5 := PathMd5(fs, path);
    if Truthy(md5) {
      SetMd5Inv(s, md5.value, boxes, frames);
    }
  }

  lemma SetItemInv<B, F>(s: Store<B, F>, fs: Files, key: Key, value: Value<B, F>)
    requires Inv(s) && SetItem(s, fs, key, value).Ok?
    ensures Inv(SetItem(s, fs, key, value).value)
  {
    if !IsDigestKey(key) {
      SetPathInv(s, fs, KeyText(key), value.boxes, value.frames);
      assert SetItem(s, fs, key, value).value == SetPath(s, fs, KeyText(key), value.boxes, value.frames);
    } else {
      SetMd5Inv(s, key.s, value.boxes, value.frames);
    }
  }

  /** After `set_for_path` of an existing file, the path finds what was stored and is contained. */
  lemma SetThenGetPath<B, F>(s: Store<B, F>, fs: Files, path: string, boxes: B, frames: F)
    requires path in fs.bytes && fs.digest(fs.bytes[path]) != ""
    ensures GetPath(SetPath(s, fs, path, boxes, frames), fs, path) ==
            Some(Entry(boxes, frames, fs.digest(fs.bytes[path])))
    ensures Contains(SetPath(s, fs, path, boxes, frames), PathKey(path))
  {
  }

  /** A missing or unhashable file changes nothing. */
  lemma SetPathMissing<B, F>(s: Store<B, F>, fs: Files, path: string, boxes: B, frames: F)
    requires !Truthy(PathMd5(fs, path))
    ensures SetPath(s, fs, path, boxes, frames) == s && GetPath(s, fs, path).None?
  {
  }

  /** Two files with the same bytes find the same entry. */
  lemma SameBytesSameEntry<B, F>(s: Store<B, F>, fs: Files, p: string, q: string)
    requires p in fs.bytes && q in fs.bytes && fs.bytes[p] == fs.bytes[q]
    ensures GetPath(s, fs, p) == GetPath(s, fs, q)
  {
  }

  /** `cache[path]` takes the stored binding over the file's current digest. */
  lemma GetItemPrefersBinding<B, F>(s: Store<B, F>, fs: Files, key: Key)
    requires Inv(s) && !IsDigestKey(key) && KeyText(key) in s.pathMap
    ensures GetItem(s, fs, key) == Ok(Some(s.cache[s.pathMap[KeyText(key)]]))
  {
  }

  /** `cache[key]` raises KeyError exactly for a path with no binding and no digest. */
  lemma GetItemKeyError<B, F>(s: Store<B, F>, fs: Files, key: Key)
    requires Inv(s)
    ensures GetItem(s, fs, key).Err? <==>
            !IsDigestKey(key) && KeyText(key) !in s.pathMap && !Truthy(PathMd5(fs, KeyText(key)))
  {
    if !IsDigestKey(key) && KeyText(key) in s.pathMap {
      GetItemPrefersBinding(s, fs, key);
    }
  }

  /** `cache[key] = value` raises ValueError exactly for a value that is no pair or a path with no digest. */
  lemma SetItemValueError<B, F>(s: Store<B, F>, fs: Files, key: Key, value: Value<B, F>)
    ensures SetItem(s, fs, key, value).Err? <==>
            value.NotATuple? || (!IsDigestKey(key) && !Truthy(PathMd5(fs, KeyText(key))))
  {
  }

  /** A key that was stored is then contained, unless it is the empty string, which `in` always rejects. */
  lemma SetItemThenContains<B, F>(s: Store<B, F>, fs: Files, key: Key, value: Value<B, F>)
    requires SetItem(s, fs, key, value).Ok?
    ensures Contains(SetItem(s, fs, key, value).value, key) <==> key != StrKey("")
  {
  }

  /** `cache[path] = (b, f)` is `set_for_path(path, b, f)`, and a digest key is `set_by_md5`. */
  lemma SetItemIsSetPath<B, F>(s: Store<B, F>, fs: Files, key: Key, boxes: B, frames: F, extra: nat)
    ensures !IsDigestKey(key) && Truthy(PathMd5(fs, KeyText(key))) ==>
            SetItem(s, fs, key, Tuple(boxes, frames, extra)) == Ok(SetPath(s, fs, KeyText(key), boxes, frames))
    ensures IsDigestKey(key) ==> SetItem(s, fs, key, Tuple(boxes, frames, extra)) == Ok(SetMd5(s, key.s, boxes, frames))
  {
  }

  /** The digest test: an upper-case digest counts, a 31-character one does not. */
  lemma HexKeyExamples()
    ensures IsHexKey("D41D8CD98F00B204E9800998ECF8427E")
    ensures !IsHexKey("d41d8cd98f00b204e9800998ecf8427")
  {
    var up := "D41D8CD98F00B204E9800998ECF8427E";
    forall k | 0 <= k < |up| ensures IsHexChar(LowerChar(up[k])) {
      HexCharCaseInsensitive(up[k]);
    }
  }

  // ---------------------------------------------------------------------------
  // The class
  // ---------------------------------------------------------------------------

  class OCRCache<B, F> {
    var cache: map<string, Entry<B, F>>
    var pathMap: map<string, string>

    function Model(): Store<B, F>
      reads this
    {
      Store(cache, pathMap)
    }

    ghost predicate Valid()
      reads this
    {
      Inv(Model())
    }

    constructor ()
      ensures Valid() && Model() == Cleared()
    {
      cache := map[];
      pathMap := map[];
    }

    /** `clear`: both dictionaries become empty. */
    method Clear()
      modifies this
      ensures Valid() && Model() == Cleared()
    {
      cache := map[];
      pathMap := map[];
    }

    method SetByMd5(md5: string, boxes: B, frames: F)
      requires Valid()
      modifies this
      ensures Valid() && Model() == SetMd5(old(Model()), md5, boxes, frames)
    {
      SetMd5Inv(Model(), md5, boxes, frames);
      if md5 == "" {
        return;
      }
      cache := cache[md5 := Entry(boxes, frames, md5)];
    }

    method GetByMd5(md5: string) returns (r: Option<Entry<B, F>>)
      ensures r == GetMd5(Model(), md5)
    {
      r := if md5 in cache then Some(cache[md5]) else None;
    }

    method HasMd5(md5: string) returns (r: bool)
      ensures r <==> GetMd5(Model(), md5).Some?
    {
      r := md5 in cache;
    }

    method SetForPath(fs: Files, path: string, boxes: B, frames: F)
      requires Valid()
      modifies this
      ensures Valid() && Model() == SetPath(old(Model()), fs, path, boxes, frames)
    {
      SetPathInv(Model(), fs, path, boxes, frames);
      var md5 := PathMd5(fs, path);
      if Truthy(md5) {
        SetByMd5(md5.value, boxes, frames);
        pathMap := pathMap[path := md5.value];
      }
    }

    method GetForPath(fs: Files, path: string) returns (r: Option<Entry<B, F>>)
      ensures r == GetPath(Model(), fs, path)
    {
      var md5 := PathMd5(fs, path);
      if !Truthy(md5) {
        return None;
      }
      r := GetByMd5(md5.value);
    }

    method SetForPixmap(fs: Files, png: Option<seq<bv8>>, boxes: B, frames: F)
      requires Valid()
      modifies this
      ensures Valid() && Model() == SetPixmap(old(Model()), PixmapMd5(fs, png), boxes, frames)
    {
      var md5 := PixmapMd5(fs, png);
      if Truthy(md5) {
        SetByMd5(md5.value, boxes, frames);
      }
    }

    method GetForPixmap(fs: Files, png: Option<seq<bv8>>) returns (r: Option<Entry<B, F>>)
      ensures r == GetPixmap(Model(), PixmapMd5(fs, png))
    {
      var md5 := PixmapMd5(fs, png);
      if !Truthy(md5) {
        return None;
      }
      r := GetByMd5(md5.value);
    }

    method ContainsKey(key: Key) returns (r: bool)
      ensures r == Contains(Model(), key)
    {
      if key == StrKey("") {
        return false;
      }
      if IsDigestKey(key) {
        return key.s in cache;
      }
      var path := KeyText(key);
      r := path in pathMap && pathMap[path] in cache;
    }

    method GetItemAt(fs: Files, key: Key) returns (r: Result<Option<Entry<B, F>>, Error>)
      ensures r == GetItem(Model(), fs, key)
    {
      if IsDigestKey(key) {
        var e := GetByMd5(key.s);
        return Ok(e);
      }
      var path := KeyText(key);
      var bound := if path in pathMap then Some(pathMap[path]) else None;
      if Truthy(bound) {
        var e := GetByMd5(bound.value);
        return Ok(e);
      }
      var md5 := PathMd5(fs, path);
      if Truthy(md5) {
        var e := GetByMd5(md5.value);
        return Ok(e);
      }
      r := Err(KeyError);
    }

    /** `cache[key] = value`; on an error nothing changes. */
    method SetItemAt(fs: Files, key: Key, value: Value<B, F>) returns (r: Result<(), Error>)
      requires Valid()
      modifies this
      ensures Valid()
      ensures SetItem(old(Model()), fs, key, value).Ok? ==> r.Ok? && Model() == SetItem(old(Model()), fs, key, value).value
      ensures SetItem(old(Model()), fs, key, value).Err? ==>
              r == Err(SetItem(old(Model()), fs, key, value).error) && Model() == old(Model())
    {
      if value.NotATuple? {
        return Err(ValueError);
      }
      if IsDigestKey(key) {
        SetByMd5(key.s, value.boxes, value.frames);
        return Ok(());
      }
      var path := KeyText(key);
      var md5 := PathMd5(fs, path);
      if Truthy(md5) {
        SetMd5Inv(Model(), md5.value, value.boxes, value.frames);
        SetByMd5(md5.value, value.boxes, value.frames);
        pathMap := pathMap[path := md5.value];
        r := Ok(());
      } else {
        r := Err(ValueError);
      }
    }
  }
}
