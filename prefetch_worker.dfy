/**
 * The prefetch worker: six loops that copy posts, pages, categories, tags,
 * users and a fixed list of options into the hybrid cache, each under a
 * deterministic key with a one-hour lifetime, and the hourly schedule.
 *
 * What WordPress returns (`get_posts`, `get_pages`, `get_categories`,
 * `get_tags`, `get_users`, `get_option`) is the input record `Fetched`; the
 * clock is the `now` argument.
 */
module PrefetchWorker {
  import opened PhpValues
  import opened FileCacheTier
  import opened HybridCacheTier

  /** Every prefetch write lives one hour. */
  const PrefetchTtl: int := 3600

  const PostPrefix: string := "post_"
  const PagePrefix: string := "page_"
  const CategoryPrefix: string := "category_"
  const TagPrefix: string := "tag_"
  const UserPrefix: string := "user_"
  const OptionPrefix: string := "option_"

  const EntityPrefixes: seq<string> := [PostPrefix, PagePrefix, CategoryPrefix, TagPrefix, UserPrefix]

  /** The option list as written, duplicates included: 86 entries naming 64 options. */
  const OptionNames: seq<string> := [
    "blogname", "blogdescription", "admin_email", "users_can_register", "default_role",
    "timezone_string", "date_format", "time_format", "start_of_week", "use_balanceTags",
    "default_category", "default_post_format", "mailserver_url", "mailserver_login",
    "mailserver_pass", "default_email_category", "comment_whitelist", "comment_registration",
    "html_type", "use_trackback", "default_role", "db_version", "uploads_use_yearmonth_folders",
    "upload_path", "blog_public", "default_link_category", "show_on_front", "tag_base",
    "show_avatars", "avatar_rating", "upload_url_path", "thumbnail_size_w", "thumbnail_size_h",
    "thumbnail_crop", "medium_size_w", "medium_size_h", "avatar_default", "large_size_w",
    "large_size_h", "image_default_link_type", "image_default_size", "image_default_align",
    "close_comments_for_old_posts", "close_comments_days_old", "thread_comments",
    "thread_comments_depth", "page_comments", "comments_per_page", "default_comments_page",
    "comment_order", "sticky_posts", "widget_categories", "widget_text", "widget_rss",
    "uninstall_plugins", "timezone_string", "blog_charset", "moderation_keys", "active_plugins",
    "category_base", "ping_sites", "comment_max_links", "moderation_notify", "permalink_structure",
    "rewrite_rules", "hack_file", "blog_charset", "moderation_keys", "active_plugins",
    "category_base", "ping_sites", "comment_max_links", "moderation_notify", "permalink_structure",
    "rewrite_rules", "hack_file", "blog_charset", "moderation_keys", "active_plugins",
    "category_base", "ping_sites", "comment_max_links", "moderation_notify", "permalink_structure",
    "rewrite_rules", "hack_file"
  ]

  /** A post, page, term or user as WordPress returns it: its `ID` (or `term_id`) and the object itself. */
  datatype Item = Item(id: nat, value: Value)

  /** What the six WordPress queries answer during one prefetch. */
  datatype Fetched = Fetched(
    posts: seq<Item>,
    pages: seq<Item>,
    categories: seq<Item>,
    tags: seq<Item>,
    users: seq<Item>,
    options: map<string, Value>)

  /** One `hybrid_cache->set($key, $value, 3600)` call. */
  datatype Write = Write(key: string, value: Value)

  /** `'post_' . $post->ID` and its siblings. */
  function EntityKey(prefix: string, id: nat): string {
    prefix + NatToString(id)
  }

  /** `get_option($name)`: the stored value, or `false` for an option that does not exist. */
  function GetOption(options: map<string, Value>, name: string): Value {
    if name in options then options[name] else Miss
  }

  /** The writes of one entity loop: one per item, in the order WordPress returned them. */
  function ItemWrites(prefix: string, items: seq<Item>): (ws: seq<Write>)
    ensures |ws| == |items|
  {
    seq(|items|, i requires 0 <= i < |items| => Write(EntityKey(prefix, items[i].id), items[i].value))
  }

  /** The writes of the option loop: one per list entry, duplicates included. */
  function OptionWrites(names: seq<string>, options: map<string, Value>): (ws: seq<Write>)
    ensures |ws| == |names|
  {
    seq(|names|, i requires 0 <= i < |names| => Write(OptionPrefix + names[i], GetOption(options, names[i])))
  }

  /** Every `set` call of `prefetch_data`: posts, pages, categories, tags, users, then options. */
  function PrefetchWrites(f: Fetched): (ws: seq<Write>)
    ensures |ws| == |f.posts| + |f.pages| + |f.categories| + |f.tags| + |f.users| + |OptionNames|
  {
    ItemWrites(PostPrefix, f.posts) + ItemWrites(PagePrefix, f.pages) + ItemWrites(CategoryPrefix, f.categories)
    + ItemWrites(TagPrefix, f.tags) + ItemWrites(UserPrefix, f.users) + OptionWrites(OptionNames, f.options)
  }

  // ---------------------------------------------------------------------------
  // What a sequence of writes does to the two tiers

  /** The runtime map after the writes, applied in order. */
  function StoreRuntime(m: map<string, Value>, ws: seq<Write>): map<string, Value>
    decreases |ws|
  {
    if ws == [] then m
    else StoreRuntime(m, ws[..|ws| - 1])[ws[|ws| - 1].key := ws[|ws| - 1].value]
  }

  /** The cache directory after the writes, applied in order, each a `file_put_contents` to the key's file. */
  function StoreFiles(files: map<string, Entry>, ws: seq<Write>, dir: string, digest: string -> string, now: int,
                      storage: Storage): map<string, Entry>
    decreases |ws|
  {
    if ws == [] then files
    else
      var w := ws[|ws| - 1];
      PutContents(StoreFiles(files, ws[..|ws| - 1], dir, digest, now, storage),
                  CachePath(dir, digest(w.key)), Live(w.value, now + PrefetchTtl), storage)
  }

  /** The value of the last write to `key`, if any. */
  function LastWrite(ws: seq<Write>, key: string): Option<Value>
    decreases |ws|
  {
    if ws == [] then None
    else if ws[|ws| - 1].key == key then Some(ws[|ws| - 1].value)
    else LastWrite(ws[..|ws| - 1], key)
  }

  lemma {:induction false} StoreRuntimeAppend(m: map<string, Value>, w1: seq<Write>, w2: seq<Write>)
    ensures StoreRuntime(m, w1 + w2) == StoreRuntime(StoreRuntime(m, w1), w2)
    decreases |w2|
  {
    if w2 == [] {
      assert w1 + w2 == w1;
    } else {
      assert (w1 + w2)[..|w1 + w2| - 1] == w1 + w2[..|w2| - 1];
      StoreRuntimeAppend(m, w1, w2[..|w2| - 1]);
    }
  }

  lemma {:induction false} StoreFilesAppend(files: map<string, Entry>, w1: seq<Write>, w2: seq<Write>,
                                            dir: string, digest: string -> string, now: int, storage: Storage)
    ensures StoreFiles(files, w1 + w2, dir, digest, now, storage)
         == StoreFiles(StoreFiles(files, w1, dir, digest, now, storage), w2, dir, digest, now, storage)
    decreases |w2|
  {
    if w2 == [] {
      assert w1 + w2 == w1;
    } else {
      assert (w1 + w2)[..|w1 + w2| - 1] == w1 + w2[..|w2| - 1];
      StoreFilesAppend(files, w1, w2[..|w2| - 1], dir, digest, now, storage);
    }
  }

  /** The last write to a key is the last write in the later batch, or else in the earlier one. */
  lemma {:induction false} LastWriteAppend(w1: seq<Write>, w2: seq<Write>, key: string)
    ensures LastWrite(w1 + w2, key) == if LastWrite(w2, key).Some? then LastWrite(w2, key) else LastWrite(w1, key)
    decreases |w2|
  {
    if w2 == [] {
      assert w1 + w2 == w1;
    } else {
      assert (w1 + w2)[..|w1 + w2| - 1] == w1 + w2[..|w2| - 1];
      LastWriteAppend(w1, w2[..|w2| - 1], key);
    }
  }

  /** Last write wins: a written key holds its last write's value, and every other key is as before. */
  lemma {:induction false} StoreRuntimeLookup(m: map<string, Value>, ws: seq<Write>, key: string)
    ensures LastWrite(ws, key).Some? ==>
      key in StoreRuntime(m, ws) && StoreRuntime(m, ws)[key] == LastWrite(ws, key).value
    ensures LastWrite(ws, key).None? ==>
      (key in StoreRuntime(m, ws) <==> key in m) && (key in m ==> StoreRuntime(m, ws)[key] == m[key])
    decreases |ws|
  {
    if ws != [] {
      StoreRuntimeLookup(m, ws[..|ws| - 1], key);
    }
  }

  /**
   * On storage that takes the writes, a key that was written has a live file
   * expiring one hour after `now`; on full storage its file is truncated; on
   * storage that refuses them nothing changes. A file no write names is untouched.
   */
  lemma {:induction false} StoreFilesLookup(files: map<string, Entry>, ws: seq<Write>, dir: string,
                                            digest: string -> string, now: int, storage: Storage, key: string)
    ensures var path, r := CachePath(dir, digest(key)), StoreFiles(files, ws, dir, digest, now, storage);
      storage == Writable && LastWrite(ws, key).Some? ==>
        path in r && r[path].Live? && r[path].expires == now + PrefetchTtl
    ensures var path, r := CachePath(dir, digest(key)), StoreFiles(files, ws, dir, digest, now, storage);
      storage == Full && LastWrite(ws, key).Some? ==> path in r && r[path] == Corrupt
    ensures storage == ReadOnly ==> StoreFiles(files, ws, dir, digest, now, storage) == files
    ensures var path, r := CachePath(dir, digest(key)), StoreFiles(files, ws, dir, digest, now, storage);
      (forall i :: 0 <= i < |ws| ==> CachePath(dir, digest(ws[i].key)) != path) ==>
        (path in r <==> path in files) && (path in files ==> r[path] == files[path])
    decreases |ws|
  {
    if ws != [] {
      StoreFilesLookup(files, ws[..|ws| - 1], dir, digest, now, storage, key);
    }
  }

  // ---------------------------------------------------------------------------
  // Keys

  /** The five entity prefixes already differ in their first two characters. */
  lemma PrefixHeadsDistinct(p1: string, p2: string)
    requires p1 in EntityPrefixes && p2 in EntityPrefixes
    ensures |p1| >= 2 && |p2| >= 2
    ensures p1 != p2 ==> p1[0] != p2[0] || p1[1] != p2[1]
  {
  }

  /** Within one kind, the key determines the ID; keys of different kinds never meet. */
  lemma EntityKeysDistinct(p1: string, a: nat, p2: string, b: nat)
    requires p1 in EntityPrefixes && p2 in EntityPrefixes
    ensures EntityKey(p1, a) == EntityKey(p2, b) <==> p1 == p2 && a == b
  {
    var k1, k2 := EntityKey(p1, a), EntityKey(p2, b);
    PrefixHeadsDistinct(p1, p2);
    assert k1[0] == p1[0] && k1[1] == p1[1] && k2[0] == p2[0] && k2[1] == p2[1];
    if p1 == p2 && k1 == k2 {
      assert NatToString(a) == k1[|p1|..] && NatToString(b) == k2[|p2|..];
      NatToStringInjective(a, b);
    }
  }

  lemma EntityKeyIsNoOptionKey(p: string, a: nat, name: string)
    requires p in EntityPrefixes
    ensures EntityKey(p, a) != OptionPrefix + name
  {
    assert EntityKey(p, a)[0] == p[0] && (OptionPrefix + name)[0] == 'o';
  }

  /** A duplicated option name leaves one key, and it holds that option's value. */
  lemma {:induction false} OptionKeyHoldsOption(names: seq<string>, options: map<string, Value>, name: string)
    requires name in names
    ensures LastWrite(OptionWrites(names, options), OptionPrefix + name) == Some(GetOption(options, name))
    decreases |names|
  {
    var ws := OptionWrites(names, options);
    var init, last := names[..|names| - 1], names[|names| - 1];
    assert ws[..|ws| - 1] == OptionWrites(init, options);
    if OptionPrefix + last == OptionPrefix + name {
      assert last == (OptionPrefix + last)[|OptionPrefix|..] == (OptionPrefix + name)[|OptionPrefix|..] == name;
    } else {
      assert names == init + [last];
      OptionKeyHoldsOption(init, options, name);
    }
  }

  /** A write batch that never names `key` leaves its last write undefined. */
  lemma {:induction false} NoWriteTo(ws: seq<Write>, key: string)
    requires forall i :: 0 <= i < |ws| ==> ws[i].key != key
    ensures LastWrite(ws, key).None?
    decreases |ws|
  {
    if ws != [] {
      NoWriteTo(ws[..|ws| - 1], key);
    }
  }

  /** Among items with distinct IDs, each item's key last receives that item. */
  lemma {:induction false} ItemLastWrite(prefix: string, items: seq<Item>, i: nat)
    requires prefix in EntityPrefixes
    requires i < |items|
    requires forall j :: 0 <= j < |items| && j != i ==> items[j].id != items[i].id
    ensures LastWrite(ItemWrites(prefix, items), EntityKey(prefix, items[i].id)) == Some(items[i].value)
    decreases |items|
  {
    var ws := ItemWrites(prefix, items);
    var n := |items| - 1;
    assert ws[..n] == ItemWrites(prefix, items[..n]);
    if i < n {
      EntityKeysDistinct(prefix, items[n].id, prefix, items[i].id);
      ItemLastWrite(prefix, items[..n], i);
    }
  }

  /** An entity loop never writes the key of another kind's entity. */
  lemma OtherKindNoWrite(prefix: string, items: seq<Item>, p: string, id: nat)
    requires prefix in EntityPrefixes && p in EntityPrefixes && prefix != p
    ensures LastWrite(ItemWrites(prefix, items), EntityKey(p, id)).None?
  {
    var ws := ItemWrites(prefix, items);
    forall j | 0 <= j < |ws| ensures ws[j].key != EntityKey(p, id) {
      EntityKeysDistinct(prefix, items[j].id, p, id);
    }
    NoWriteTo(ws, EntityKey(p, id));
  }

  /** The option loop never writes an entity key. */
  lemma OptionsNoEntityWrite(names: seq<string>, options: map<string, Value>, p: string, id: nat)
    requires p in EntityPrefixes
    ensures LastWrite(OptionWrites(names, options), EntityKey(p, id)).None?
  {
    var ws := OptionWrites(names, options);
    forall j | 0 <= j < |ws| ensures ws[j].key != EntityKey(p, id) {
      EntityKeyIsNoOptionKey(p, id, names[j]);
    }
    NoWriteTo(ws, EntityKey(p, id));
  }

  /** After a prefetch, each fetched post (IDs distinct) sits in the runtime tier under `post_<ID>`. */
  lemma PrefetchedPostIsCached(m: map<string, Value>, f: Fetched, i: nat)
    requires i < |f.posts|
    requires forall j :: 0 <= j < |f.posts| && j != i ==> f.posts[j].id != f.posts[i].id
    ensures var key := EntityKey(PostPrefix, f.posts[i].id);
      key in StoreRuntime(m, PrefetchWrites(f)) && StoreRuntime(m, PrefetchWrites(f))[key] == f.posts[i].value
  {
    var id := f.posts[i].id;
    var key := EntityKey(PostPrefix, id);
    var w1, w2, w3 := ItemWrites(PostPrefix, f.posts), ItemWrites(PagePrefix, f.pages), ItemWrites(CategoryPrefix, f.categories);
    var w4, w5, w6 := ItemWrites(TagPrefix, f.tags), ItemWrites(UserPrefix, f.users), OptionWrites(OptionNames, f.options);
    ItemLastWrite(PostPrefix, f.posts, i);
    OtherKindNoWrite(PagePrefix, f.pages, PostPrefix, id);
    LastWriteAppend(w1, w2, key);
    OtherKindNoWrite(CategoryPrefix, f.categories, PostPrefix, id);
    LastWriteAppend(w1 + w2, w3, key);
    OtherKindNoWrite(TagPrefix, f.tags, PostPrefix, id);
    LastWriteAppend(w1 + w2 + w3, w4, key);
    OtherKindNoWrite(UserPrefix, f.users, PostPrefix, id);
    LastWriteAppend(w1 + w2 + w3 + w4, w5, key);
    OptionsNoEntityWrite(OptionNames, f.options, PostPrefix, id);
    LastWriteAppend(w1 + w2 + w3 + w4 + w5, w6, key);
    StoreRuntimeLookup(m, PrefetchWrites(f), key);
  }

  /** After a prefetch, every listed option sits in the runtime tier under `option_<name>`, holding `get_option`'s answer. */
  lemma PrefetchedOptionIsCached(m: map<string, Value>, f: Fetched, name: string)
    requires name in OptionNames
    ensures var key := OptionPrefix + name;
      key in StoreRuntime(m, PrefetchWrites(f)) && StoreRuntime(m, PrefetchWrites(f))[key] == GetOption(f.options, name)
  {
    var key := OptionPrefix + name;
    var front := ItemWrites(PostPrefix, f.posts) + ItemWrites(PagePrefix, f.pages) + ItemWrites(CategoryPrefix, f.categories)
      + ItemWrites(TagPrefix, f.tags) + ItemWrites(UserPrefix, f.users);
    OptionKeyHoldsOption(OptionNames, f.options, name);
    LastWriteAppend(front, OptionWrites(OptionNames, f.options), key);
    StoreRuntimeLookup(m, PrefetchWrites(f), key);
  }

  // ---------------------------------------------------------------------------
  // The worker

  /** `wp_schedule_event` records: when, how often, which hook. */
  datatype CronEvent = CronEvent(timestamp: int, recurrence: string, hook: string)

  const PrefetchHook: string := "speeddash_prefetch_worker"

  /** How many scheduled events fire `hook`. */
  function CountHook(events: seq<CronEvent>, hook: string): (n: nat)
    ensures n <= |events|
    ensures n == 0 <==> forall i :: 0 <= i < |events| ==> events[i].hook != hook
    decreases |events|
  {
    if events == [] then 0
    else CountHook(events[..|events| - 1], hook) + (if events[|events| - 1].hook == hook then 1 else 0)
  }

  /** WordPress's event schedule. */
  class Cron {
    var events: seq<CronEvent>

    constructor (events: seq<CronEvent>)
      ensures this.events == events
    {
      this.events := events;
    }

    /** `wp_next_scheduled($hook)` answers something. */
    predicate Pending(hook: string)
      reads this
    {
      exists i :: 0 <= i < |events| && events[i].hook == hook
    }
  }

  class Prefetcher {
    const cache: HybridCache

    constructor (cache: HybridCache)
      ensures this.cache == cache
    {
      this.cache := cache;
    }

    /** One entity loop: `set("<prefix><id>", $item, 3600)` per item, in order. */
    method StoreItems(prefix: string, items: seq<Item>, now: int)
      modifies cache.runtime, cache.file
      ensures cache.runtime.cache == StoreRuntime(old(cache.runtime.cache), ItemWrites(prefix, items))
      ensures cache.file.files == StoreFiles(old(cache.file.files), ItemWrites(prefix, items),
          cache.file.dir, cache.file.digest, now, cache.file.storage)
      ensures cache.file.storage == old(cache.file.storage)
      ensures cache.runtime.hits == old(cache.runtime.hits) && cache.runtime.misses == old(cache.runtime.misses)
      ensures cache.file.hits == old(cache.file.hits) && cache.file.misses == old(cache.file.misses)
    {
      ghost var ws := ItemWrites(prefix, items);
      var i := 0;
      while i < |items|
        invariant 0 <= i <= |items|
        invariant cache.runtime.cache == StoreRuntime(old(cache.runtime.cache), ws[..i])
        invariant cache.file.files == StoreFiles(old(cache.file.files), ws[..i],
            cache.file.dir, cache.file.digest, now, cache.file.storage)
        invariant cache.file.storage == old(cache.file.storage)
        invariant cache.runtime.hits == old(cache.runtime.hits) && cache.runtime.misses == old(cache.runtime.misses)
        invariant cache.file.hits == old(cache.file.hits) && cache.file.misses == old(cache.file.misses)
      {
        var key := prefix + NatToString(items[i].id);
        var _ := cache.Set(key, items[i].value, now, PrefetchTtl);
        assert ws[..i + 1][..i] == ws[..i];
        i := i + 1;
      }
      assert ws[..|items|] == ws;
    }

    /** The option loop: `set('option_' . $name, get_option($name), 3600)` per list entry. */
    method StoreOptions(names: seq<string>, options: map<string, Value>, now: int)
      modifies cache.runtime, cache.file
      ensures cache.runtime.cache == StoreRuntime(old(cache.runtime.cache), OptionWrites(names, options))
      ensures cache.file.files == StoreFiles(old(cache.file.files), OptionWrites(names, options),
          cache.file.dir, cache.file.digest, now, cache.file.storage)
      ensures cache.file.storage == old(cache.file.storage)
      ensures cache.runtime.hits == old(cache.runtime.hits) && cache.runtime.misses == old(cache.runtime.misses)
      ensures cache.file.hits == old(cache.file.hits) && cache.file.misses == old(cache.file.misses)
    {
      ghost var ws := OptionWrites(names, options);
      var i := 0;
      while i < |names|
        invariant 0 <= i <= |names|
        invariant cache.runtime.cache == StoreRuntime(old(cache.runtime.cache), ws[..i])
        invariant cache.file.files == StoreFiles(old(cache.file.files), ws[..i],
            cache.file.dir, cache.file.digest, now, cache.file.storage)
        invariant cache.file.storage == old(cache.file.storage)
        invariant cache.runtime.hits == old(cache.runtime.hits) && cache.runtime.misses == old(cache.runtime.misses)
        invariant cache.file.hits == old(cache.file.hits) && cache.file.misses == old(cache.file.misses)
      {
        var value := GetOption(options, names[i]);
        var _ := cache.Set(OptionPrefix + names[i], value, now, PrefetchTtl);
        assert ws[..i + 1][..i] == ws[..i];
        i := i + 1;
      }
      assert ws[..|names|] == ws;
    }

    /** `prefetch_data`: the six loops in their fixed order. */
    method PrefetchData(f: Fetched, now: int)
      modifies cache.runtime, cache.file
      ensures cache.runtime.cache == StoreRuntime(old(cache.runtime.cache), PrefetchWrites(f))
      ensures cache.file.files == StoreFiles(old(cache.file.files), PrefetchWrites(f),
          cache.file.dir, cache.file.digest, now, cache.file.storage)
      ensures cache.file.storage == old(cache.file.storage)
      ensures cache.runtime.hits == old(cache.runtime.hits) && cache.runtime.misses == old(cache.runtime.misses)
      ensures cache.file.hits == old(cache.file.hits) && cache.file.misses == old(cache.file.misses)
    {
      var w1, w2, w3 := ItemWrites(PostPrefix, f.posts), ItemWrites(PagePrefix, f.pages), ItemWrites(CategoryPrefix, f.categories);
      var w4, w5, w6 := ItemWrites(TagPrefix, f.tags), ItemWrites(UserPrefix, f.users), OptionWrites(OptionNames, f.options);
      ghost var m0, files0 := cache.runtime.cache, cache.file.files;
      ghost var dir, digest, storage := cache.file.dir, cache.file.digest, cache.file.storage;
      StoreItems(PostPrefix, f.posts, now);
      StoreItems(PagePrefix, f.pages, now);
      StoreRuntimeAppend(m0, w1, w2);
      StoreFilesAppend(files0, w1, w2, dir, digest, now, storage);
      StoreItems(CategoryPrefix, f.categories, now);
      StoreRuntimeAppend(m0, w1 + w2, w3);
      StoreFilesAppend(files0, w1 + w2, w3, dir, digest, now, storage);
      StoreItems(TagPrefix, f.tags, now);
      StoreRuntimeAppend(m0, w1 + w2 + w3, w4);
      StoreFilesAppend(files0, w1 + w2 + w3, w4, dir, digest, now, storage);
      StoreItems(UserPrefix, f.users, now);
      StoreRuntimeAppend(m0, w1 + w2 + w3 + w4, w5);
      StoreFilesAppend(files0, w1 + w2 + w3 + w4, w5, dir, digest, now, storage);
      StoreOptions(OptionNames, f.options, now);
      StoreRuntimeAppend(m0, w1 + w2 + w3 + w4 + w5, w6);
      StoreFilesAppend(files0, w1 + w2 + w3 + w4 + w5, w6, dir, digest, now, storage);
    }

    /** Schedules the hourly prefetch event unless one is already pending. */
    method SchedulePrefetch(cron: Cron, now: int)
      modifies cron
      ensures old(cron.Pending(PrefetchHook)) ==> cron.events == old(cron.events)
      ensures !old(cron.Pending(PrefetchHook)) ==> cron.events == old(cron.events) + [CronEvent(now, "hourly", PrefetchHook)]
    {
      var pending := exists i :: 0 <= i < |cron.events| && cron.events[i].hook == PrefetchHook;
      if !pending {
        cron.events := cron.events + [CronEvent(now, "hourly", PrefetchHook)];
      }
    }
  }

  /** Scheduling never leaves more than one prefetch event behind it than there were, and at least one. */
  lemma ScheduleCount(before: seq<CronEvent>, after: seq<CronEvent>, now: int)
    requires CountHook(before, PrefetchHook) > 0 ==> after == before
    requires CountHook(before, PrefetchHook) == 0 ==> after == before + [CronEvent(now, "hourly", PrefetchHook)]
    ensures CountHook(after, PrefetchHook) == if CountHook(before, PrefetchHook) == 0 then 1 else CountHook(before, PrefetchHook)
  {
    if CountHook(before, PrefetchHook) == 0 {
      assert after[..|after| - 1] == before;
    }
  }

  /** However often the schedule hook runs, a cron with no prefetch event ends up with exactly one, from the first call. */
  method ScheduleRepeatedly(p: Prefetcher, cron: Cron, times: seq<int>)
    requires times != []
    requires CountHook(cron.events, PrefetchHook) == 0
    modifies cron
    ensures CountHook(cron.events, PrefetchHook) == 1
    ensures cron.events == old(cron.events) + [CronEvent(times[0], "hourly", PrefetchHook)]
  {
    var i := 0;
    while i < |times|
      invariant 0 <= i <= |times|
      invariant i == 0 ==> cron.events == old(cron.events)
      invariant i > 0 ==> cron.events == old(cron.events) + [CronEvent(times[0], "hourly", PrefetchHook)]
      invariant i > 0 ==> CountHook(cron.events, PrefetchHook) == 1
    {
      ghost var before := cron.events;
      p.SchedulePrefetch(cron, times[i]);
      ScheduleCount(before, cron.events, times[i]);
      i := i + 1;
    }
  }
}
