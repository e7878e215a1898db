# electrum-server dispatch engine and IRC peer discovery, in Dafny

This project models two sequential cores of electrum-server, the stratum
server that Electrum wallets talk to.

**The dispatch engine (`processor.py`).**
- A *request dispatcher* gives every client request a fresh *internal id*. It
  remembers the requesting session and the client's own id in a correlation
  table, records subscriptions, and hands the request to the processor
  registered for the method's first dot-component.
- Processors push their answers to a response queue. A *response dispatcher*
  pops them one at a time. A response without an id is a notification: it is
  fanned out to every live session subscribed to it. When nobody listens to an
  address any more, the dispatcher asks for an unsubscribe. A response with an
  id is a reply: its correlation entry is popped and it goes back to the
  session that asked, under the client's id.
- A garbage collector drops stopped sessions from the registry.

**The `server` processor and IRC peer discovery (`backends/irc/__init__.py`).**
- The IRC thread derives its advertised ports, host and nickname from the
  configuration and builds the advertisement string.
- It handles the lines of the `#electrum` channel: PING, the NAMES reply 353,
  and the WHO reply 352 of section 6.2 of RFC 1459.
- Every five minutes it publishes its peer table as a `server.peers`
  notification.
- The admin processor answers `server.banner`, `server.peers.subscribe`,
  `server.version` and `server.stop`. `server.stop` and `server.info` are
  guarded by the admin password.

**How the model is built.**
- Threads become single steps. Each method is one atomic step of the thread
  that owns it: one `do_dispatch`, one `update`, one line of the IRC loop, one
  `process`.
- Strings are sequences of characters. Python 2 keeps byte `str` (the
  configuration, literals) apart from `unicode` (everything decoded from JSON).
  They compare the same when the bytes are ASCII, as every method name and
  topic literal is. The admin password gate compares a configured value with
  a client's one, and there the model keeps the difference
  (`Text.StrEqualsUnicode`).
- Queues become `seq` fields, used first-in first-out.
- The correlation table and the processor table are `map` fields.
- What a session's transport has sent is the `outbox` of its `Connection`.
- An exception becomes the `Raised` outcome, with the changes made before it
  kept. The request dispatcher and the processors print it and go on with the
  next request (processor.py:122-125 and 50-53). The response dispatcher's loop
  (processor.py:258-260) has no handler, so there it ends the thread.
- Files:
  - `messages.dfy`: the JSON values, requests, responses and outcomes.
  - `text.dfy`: the Python string operations the code relies on, with their
    properties.
  - `dispatch.dfy`: `processor.py`.
  - `irc.dfy`: `backends/irc/__init__.py`.

## Model

| member | source | states |
|---|---|---|
| Text.Split | processor.py:137 | `str.split(sep)`: at least one component, none holds the separator, and there is exactly one component iff the separator does not occur |
| Text.JoinSplit | processor.py:137 | joining the components with the separator gives the method name back, so splitting loses nothing |
| Text.FirstIsLongestPrefix | processor.py:147 | the routing prefix `split('.')[0]` is the longest dot-free prefix of the method name |
| Text.LastIsLongestSuffix | processor.py:137 | the suffix `split('.')[-1]` is the longest dot-free suffix of the method name |
| Text.LastComponentIs | processor.py:137-141 | the suffix is `subscribe` exactly when the method is `subscribe` or ends in `.subscribe` |
| Text.Take | backends/irc/__init__.py:42 | `[:10]` keeps a prefix of length min(10, length), so a short hash is kept whole |
| Text.UnescapeRemovesAll | backends/irc/__init__.py:160 | no backslash-`n` pair is left in the banner after `replace('\\n', '\n')` |
| Text.UnescapeIdentity | backends/irc/__init__.py:160 | a banner without backslash-`n` pairs is sent unchanged |
| Text.UnescapeIdempotent | backends/irc/__init__.py:160 | replacing a second time changes nothing |
| Text.StrEqualsUnicode | backends/irc/__init__.py:153 | Python 2's `password != self.password` between the client's `unicode` parameter and the configured byte `str`: equal iff the configured password is ASCII and the two are the same characters, so a non-ASCII configured password matches no parameter |
| Dispatch.BuildSubdesc | processor.py:231-243 | a descriptor exists iff the method is the numblocks or headers topic, or the address topic with non-empty params; it names the method, and it carries `params[0]` exactly for the address topic |
| Dispatch.Shared.constructor | processor.py:14-17 | the stop flag starts cleared, and the configured admin password is kept |
| Dispatch.Shared.Stop | processor.py:19-22 | after `stop` the shared flag is set |
| Dispatch.Shared.Stopped | processor.py:24-26 | reports the shared flag |
| Dispatch.Processor.constructor | processor.py:31-35 | a processor's queue starts empty |
| Dispatch.Processor.AddRequest | processor.py:40-41 | the request joins the end of the processor's queue |
| Dispatch.Session.constructor | processor.py:191-198 | a new session is live, has no subscriptions, empty address and name, and version `'unknown'` |
| Dispatch.Session.Stopped | processor.py:220-222 | reports the session's stop flag |
| Dispatch.Session.SubscribeToService | processor.py:224-228 | appends the descriptor at the end when there is one, keeping duplicates, and leaves the list unchanged otherwise; afterwards the session contains the descriptor |
| Dispatch.Session.ContainsSubscription | processor.py:245-247 | holds iff the descriptor is one of the session's subscriptions; a missing descriptor is never contained |
| Dispatch.Session.SendResponse | processor.py:293 | the response is appended to what the session's connection has sent |
| Dispatch.RequestDispatcher.constructor | processor.py:77-87 | empty queues, empty correlation table, counter at 1, no sessions, no processors |
| Dispatch.RequestDispatcher.Register | processor.py:68-72 | the processor serves the prefix, replacing any earlier one |
| Dispatch.RequestDispatcher.PushResponse | processor.py:89-90 | the response joins the end of the response queue |
| Dispatch.RequestDispatcher.PushRequest | processor.py:95-96 | the `(session, request)` pair joins the end of the request queue |
| Dispatch.RequestDispatcher.GetSessionByAddress | processor.py:101-104 | returns the first registered session with the address, or null when none has it |
| Dispatch.RequestDispatcher.GetSessionId | processor.py:106-108 | returns the entry stored under the id and removes that key only; an absent key (KeyError) returns nothing and changes nothing |
| Dispatch.RequestDispatcher.StoreSessionId | processor.py:110-115 | stores `(session, msgid)` under the current counter value, which was not in use, returns it, leaves every other entry alone and advances the counter by one, so ids are unique and increasing |
| Dispatch.RequestDispatcher.CorrelationRoundTrip | processor.py:106-115 | popping the id just handed out gives back exactly the stored entry and restores the table |
| Dispatch.RequestDispatcher.DoDispatch | processor.py:132-165 | for a session whose method's last component is `subscribe`, its descriptor, if any, is appended first; a request without an id raises KeyError after that and changes nothing else; otherwise a correlation entry is created under a fresh id even for an unregistered prefix, and routing follows `Route`; the session's other fields are untouched |
| Dispatch.RequestDispatcher.Route | processor.py:147-161 | an unregistered prefix changes no queue and completes; a registered one gets the request with its internal id, and for `server.version` the session's version then becomes `params[0]`; without params that raises IndexError, which Python hits before it looks at the session, and with params but no session it raises AttributeError |
| Dispatch.RequestDispatcher.Enqueue | processor.py:147-154 | only the processor of the prefix gains the request, at the end; with no such processor nothing changes |
| Dispatch.RequestDispatcher.RecordVersion | processor.py:156-161 | sets the session's version to the first parameter of `server.version` and changes no other session field; empty params raise IndexError (with or without a session), and params without a session raise AttributeError |
| Dispatch.RequestDispatcher.GetSessions | processor.py:167-170 | returns the registry as it is |
| Dispatch.RequestDispatcher.AddSession | processor.py:172-174 | the session joins the end of the registry |
| Dispatch.RequestDispatcher.CollectGarbage | processor.py:176-186 | the registry becomes the old registry with its stopped sessions dropped, in the same order |
| Dispatch.LiveOnlyCount | processor.py:182-186 | each live session keeps all its occurrences and each stopped one keeps none |
| Dispatch.LiveOnlyAppend | processor.py:182-186 | filtering distributes over concatenation, so relative order is preserved |
| Dispatch.LiveOnlyMembers | processor.py:182-186 | a session survives iff it was registered and is not stopped |
| Dispatch.LiveOnlyIdempotent | processor.py:176-186 | a second collection right after a first changes nothing |
| Dispatch.LiveOnlyDistinct | processor.py:176-186 | collection never makes two registry entries share a connection |
| Dispatch.ResponseDispatcher.constructor | processor.py:252-256 | the response dispatcher keeps the shared state and the request dispatcher it answers through |
| Dispatch.UnsubscribeRequest | processor.py:273-277 | the auto-unsubscribe request has id None; its method ends in `.unsubscribe` and is the address topic with its `.subscribe` suffix replaced by `.unsubscribe` (the model writes the result of `method.replace` as a constant, since the method is always the address topic there); its params are the admin password followed by the notification's params |
| Dispatch.ResponseDispatcher.Notification | processor.py:286-296 | reports whether some live registry entry is subscribed to the descriptor, and every connection receives the unchanged response once per such entry it serves and nothing else |
| Dispatch.ResponseDispatcher.Deliver | processor.py:289-294 | a stopped session is skipped; a live subscribed one receives the response once |
| Dispatch.DeliveredIffFlagged | processor.py:289-294 | a connection receives the notification iff one of its registry entries is live and subscribed |
| Dispatch.DeliveredOnce | processor.py:289-294 | when no two entries share a connection, each subscribed live session receives the notification exactly once |
| Dispatch.ResponseDispatcher.SendResponse | processor.py:298-302 | pops the entry of the reply's id and delivers the reply to that session only, under the client's own id; with no session, nothing is delivered; an unknown id raises KeyError and changes nothing |
| Dispatch.ResponseDispatcher.Update | processor.py:262-284 | pops the oldest response; a notification is fanned out as in `Notification`, and when nobody received an address notification exactly one unsubscribe request `[password] + params` is queued with no session (TypeError without params); a reply goes through `SendResponse`; the correlation table stays valid |
| Irc.IrcThread.constructor | backends/irc/__init__.py:14-47 | each non-empty `report_` port and `report_host` overrides the local value; the prefix is `EL_` exactly for litecoin; pruning iff the backend is leveldb; the nick is the prefix followed by the configured nick or else the first 10 characters of the hash of `report_host` |
| Irc.IrcThread.GetPeers | backends/irc/__init__.py:49-50 | returns every peer of the table once, in some order of its keys |
| Irc.ListingSize | backends/irc/__init__.py:49-50 | the listing has exactly as many elements as the table has peers |
| Irc.IrcThread.GetName | backends/irc/__init__.py:52-64 | the advertisement is the space-terminated tokens `v<version>`, `p` when pruning, `t<tcp>` and `h<http>` for set ports, then `s<tcp_ssl>` and `g<http_ssl>` guarded by the plain ports |
| Irc.AdvertRoundTrip | backends/irc/__init__.py:52-64 | a peer that splits the advertisement on spaces recovers the version, the pruning flag and each advertised port; the SSL ports are recovered only when the plain port is set |
| Irc.IrcThread.Handshake | backends/irc/__init__.py:80-84 | sends USER with host and advertisement, NICK and JOIN `#electrum`, and restarts the publication clock at 0 |
| Irc.IndexOf | backends/irc/__init__.py:92 | `list.index`: the position of the first occurrence |
| Irc.IrcThread.QueryMembers | backends/irc/__init__.py:93-95 | one `WHO` line per member carrying the coin's prefix, in order |
| Irc.WhoQueriesExact | backends/irc/__init__.py:91-95 | a `WHO` line is sent iff some member after the first `353` carries the prefix |
| Irc.IrcThread.Answer | backends/irc/__init__.py:89-103 | a PING gets one PONG with its second token; a NAMES reply gets the `WHO` queries; a WHO reply upserts the peer it names; a line too short for its branch raises IndexError and changes nothing |
| Irc.HeardOnlyNamed | backends/irc/__init__.py:96-103 | every known peer other than the one a WHO reply names keeps its entry |
| Irc.HeardKeys | backends/irc/__init__.py:96-103 | a WHO reply adds or overwrites exactly the member it names and removes nobody; PING, NAMES and other lines leave the table as it is |
| Irc.IrcThread.Publish | backends/irc/__init__.py:104-108 | after more than 300 seconds, exactly one `server.peers` notification listing the table is pushed, NAMES is sent, the clock is set to now and the table is emptied; otherwise nothing changes |
| Irc.IrcThread.HandleLine | backends/irc/__init__.py:85-108 | an empty line changes nothing and skips publication; a handled line answers as `Answer` and then publishes as `Publish`; a malformed line ends the connection |
| Irc.ServerProcessor.constructor | backends/irc/__init__.py:120-129 | banner and password come from the configuration, and the password is the shared one; an IRC thread exists iff `irc` is `yes`, and it is a fresh thread configured from the same configuration as the `IrcThread` constructor does, with an empty peer table |
| Irc.ServerProcessor.GetPeers | backends/irc/__init__.py:131-135 | no peers when IRC is off, otherwise the IRC thread's listing |
| Irc.ServerProcessor.Process | backends/irc/__init__.py:142-192 | no params raises KeyError; stop and info push exactly the `incorrect password` error and do not stop unless the first param is a string that Python 2 finds equal to the configured password (`StrEqualsUnicode`), so with a non-ASCII configured password they are always refused; banner, peers, version and stop push their result, and stop sets the shared flag; an unknown method pushes a null result; nothing is pushed for an empty-string result |

## Left out

- Threads, daemon flags, the blocking `get` of the queues and the locks: each method is one atomic step, and waiting on an empty response queue is a step that changes nothing.
- Sockets, `connect`, `readline`, timeouts and the reconnect loop of the IRC thread: lines arrive as token lists, and the lines to send are returned. A failed step ends with `ok == false` instead of closing the socket.
- The IRC thread's link to its processor (`self.processor`): `HandleLine` returns the `server.peers` notification it would push through the processor instead of pushing it, and the shared stop flag it polls belongs to the loop that is left out.
- `ServerProcessor.run` and `Processor.run`, which only start threads and loop over the queue.
- Dispatch.ResponseDispatcher.Update: a step that ends in `Raised` (an unknown reply id, or an address notification without params) ends the response dispatcher's thread in electrum-server, since its loop has no handler; the model describes one step and does not model that no response is delivered afterwards.
- Irc.IrcThread.Publish: the clock is an integer parameter, while `time.time()` is a float, and the handler reads it once where electrum-server reads it twice (to compare, then to reset after a `send` that may block).
- A request whose `params` key holds null: `Request.params == None` stands for a missing key only. In electrum-server, null params make `server.banner` answer normally and make `server.version` raise TypeError in `do_dispatch`; the model cannot express that input.
- A request without a `method` key, or with a method that is not a string; the model's method name is always a string. In electrum-server, a missing key raises KeyError in `do_dispatch` (processor.py:135) and in `process` (backends/irc/__init__.py:143). A method that is not a string raises AttributeError at `method.split` in `do_dispatch` (processor.py:137). In `process` it raises nothing: it falls through to the unknown-method branch and pushes a null result.
- Whitespace tokenization (`rstrip('\r\n').split()`) of IRC lines: the handler starts from the tokens.
- `socket.gethostbyname`, `utils.Hash` and `time.time` are parameters. A resolution failure is not modelled.
- `VERSION` (version.py is not part of this model) is a constructor parameter.
- `print_log` and `traceback` output.
- `Session.info` and its `threading.Timer`, which are debug logging only.
- Session `time` and `protocol_version`: they are floats. The `float(params[1])` parse in `do_dispatch` and the unused `is_new` comparison are not modelled.
- Irc.ServerProcessor.Process: `server.info`, `server.cache` and `server.load` end as `Unmodelled`. They read float timestamps and other processors' internals that are not part of this model.
- JSON booleans, floats and objects, and Python's equality between `True` and `1` in dictionary keys.
- A response whose `id` key is missing and one whose id is None both read as None in `update`, so the model does not tell them apart.
- The in-place update of the request and response dictionaries (`request['id'] = …`, `response['id'] = …`) is modelled as a new value. Aliasing of those dictionaries is not captured.
- Irc.IrcThread.GetPeers: the order of `dict.values()` is unspecified, so the contract allows any order of the keys.
- `Session.send_response` and the session classes of the transports are not part of this model. Their effect is the `Connection` outbox.
