# Streaming-audio orchestration, modelled in Dafny

This project models the control core of the streaming-audio system. That core has three parts.

- **The orchestrator** (`pkg/server/server.go`): it plays files on remote players, records a remote device into a file, and bridges a recorder to a player. It keeps two tables of running streams and unwinds partial work when a step fails.
- **The node services** it drives: the player, recorder, recoder and media nodes, plus the media controller. Each node keeps a table from a key to the cancel function of the goroutines it started.
- **The data plumbing**: the sample converter, the storage queue, the linked-list "cash", and the client that pulls from a connection into a device.

The model also covers the HTTP layer's error-to-status mapping and the HTTP client builder.

How the model is built:

- **Collaborators.** Players, recorders, UDP, the audio codec, devices and the RPC network are reached through interfaces. Each becomes a *collaborator function*: it gives the reply to the n-th call, and `n` is a real counter of calls made.
- **The log.** Every call made, with its reply, is appended to a log of events. So is every cancel function invoked, and every writer closed.
- **Cancel functions** are handles drawn from a counter.
- **Class form.** Where the Go code updates fields in place (the orchestrator, every node service, the cash, the queue, the client), the model is a class whose methods update those fields. Pure code (conversion, address layout, status mapping, URL building) is modelled as functions.
- **The orchestrator** is written twice:
  - `ServerSpec` holds pure functions that follow the Go control flow step by step;
  - `Server.AudioServer` is the class. Each of its methods is proved to yield exactly the state and results of the matching function;
  - `ServerProperties` and `ServerValid` prove what the workflows promise about those functions.

## Model

| member | source | states |
|---|---|---|
| Words.TruncateToUint16 | pkg/server/server.go:166 | `uint16(channels)`: the value is kept below 2^16 and otherwise reduced modulo 2^16 |
| Converter.SampleOfBytes | pkg/converter/converter.go:13-24 | the low and high byte of a sample's 16-bit pattern reassemble, little-endian, into that sample |
| Converter.Encode | pkg/converter/converter.go:10-16 | two bytes per sample, in order, low byte first |
| Converter.Decode | pkg/converter/converter.go:20-26 | sample k is bytes 2k and 2k+1 read as a little-endian int16 |
| Converter.AsWrittenCount | pkg/converter/converter.go:22 | the loop `i < len(src)-2` runs `len/2 - 1` times on an even non-empty input and never reads past the end |
| Converter.ToByte | pkg/converter/converter.go:10-16 | the loop yields exactly the little-endian encoding of the samples |
| Converter.ToInt16 | pkg/converter/converter.go:20-26 | as written, the loop decodes only `AsWrittenCount(len(src))` samples |
| Converter.ToInt16Intended | pkg/converter/converter.go:20-26 | with the bound `i+1 < len(src)` the loop decodes every complete sample |
| Converter.RoundTrip | pkg/converter/converter.go:10-26 | decoding every pair of an encoding gives the samples back |
| Converter.RoundTripAsWrittenDropsLast | pkg/converter/converter.go:20-26 | the as-written decode of an encoding loses exactly the last sample |
| Converter.OneSampleIsLost | pkg/converter/converter.go:20-26 | a single encoded sample decodes, as written, to nothing |
| Converter.EncodeThenDecodeAsWritten | pkg/converter/converter.go:10-26 | `ToInt16(ToByte(s))` as written gives `s` without its last sample, and nothing for empty `s` |
| Converter.EncodeThenDecodeIntended | pkg/converter/converter.go:10-26 | with the corrected loop bound, `ToInt16(ToByte(s))` gives `s` back |
| Storage.Copied | pkg/storage/list.go:28 | `copy` overwrites the first min(len) bytes of the buffer and keeps the rest |
| Storage.Queue.constructor | pkg/storage/list.go:10-12 | a new queue holds an empty list |
| Storage.Queue.Write | pkg/storage/list.go:15-18 | the chunk is appended at the back; `n` is 0 and there is no error |
| Storage.Queue.Read | pkg/storage/list.go:21-31 | an empty list gives `io.EOF` and changes nothing; otherwise the front chunk is copied into the buffer and removed, even when the buffer is too short for it |
| Storage.Queue.Close | pkg/storage/list.go:33-36 | the list becomes nil |
| Storage.Reads | pkg/storage/list.go:21-31 | k reads into buffers of one size give k results, each a full buffer or EOF |
| Storage.WritesThenReads | pkg/storage/list.go:15-31 | FIFO: chunks written come back from reads in order, each as a prefix of its buffer, then EOF |
| Storage.WriteAll | pkg/storage/list.go:15-18 | successive writes leave the chunks at the back of the list, in the order written |
| Storage.ReadAll | pkg/storage/list.go:21-31 | successive reads on the queue return exactly what `Reads` describes for its list |
| Storage.WriteThenReadBack | pkg/storage/list.go:15-31 | a queue given chunks by Write, then read into fresh buffers, returns exactly `Reads`: each chunk in order as a prefix of its buffer, then EOF |
| Cashes.Cash.constructor | pkg/cash/cash.go:36-38 | both pointers nil, an empty list |
| Cashes.Cash.Push | pkg/cash/cash.go:10-24 | the chunk is appended at the back; `top` is set only when the list was empty |
| Cashes.Cash.Pop | pkg/cash/cash.go:27-33 | an empty list gives nil; otherwise the front chunk is returned and removed; `back` is never reset |
| Cashes.StaleBackKeepsOrder | pkg/cash/cash.go:10-33 | after emptying, pushes through the stale `back` pointer still come out in order |
| Layouts.HostPortDistinguishesPorts | pkg/server/server.go:237 | under `"%s:%s"`, two ports of one IP give different table keys |
| ServerValid.AskKeepsValid | pkg/server/server.go:137-160 | a collaborator call keeps the handle invariant |
| ServerValid.FreshHandleUnused | pkg/server/server.go:240 | the next handle is in neither table and was never invoked |
| ServerValid.StartSendingKeepsValid | pkg/server/server.go:233-249 | startSending keeps the handle invariant |
| ServerValid.StopSendingKeepsValid | pkg/server/server.go:251-263 | stopSending keeps the handle invariant |
| ServerValid.StartReceiveKeepsValid | pkg/server/server.go:265-283 | startReceive keeps the handle invariant |
| ServerValid.StopReceiveKeepsValid | pkg/server/server.go:285-296 | stopReceive keeps the handle invariant |
| Server.AudioServer.constructor | pkg/server/server.go:299-322 | empty tables, and the handle invariant holds |
| Server.AudioServer.PlayerReceiveStart | pkg/server/server.go:137-140 | forwards ip, port and the optional storage uuid (nil from both workflows) to the player, and returns its uuid and error |
| Server.AudioServer.PlayerReceiveStop | pkg/server/server.go:142-146 | forwards to the player |
| Server.AudioServer.PlayerPlay | pkg/server/server.go:148-151 | forwards to the player |
| Server.AudioServer.PlayerStop | pkg/server/server.go:153-156 | forwards to the player |
| Server.AudioServer.PlayerClearStorage | pkg/server/server.go:158-161 | forwards to the player |
| Server.AudioServer.RecorderStart | pkg/server/server.go:224-226 | forwards to the recorder, the destination address first |
| Server.AudioServer.RecoderStop | pkg/server/server.go:229-231 | forwards to the recorder |
| Server.AudioServer.StartSending | pkg/server/server.go:233-249 | state and error are those of the sending-table start, and the invariant is kept |
| Server.AudioServer.StopSending | pkg/server/server.go:251-263 | state and error are those of the sending-table stop, and the invariant is kept |
| Server.AudioServer.StartReceive | pkg/server/server.go:265-283 | state and error are those of the receiving-table start, and the invariant is kept |
| Server.AudioServer.StopReceive | pkg/server/server.go:285-296 | state and error are those of the receiving-table stop, and the invariant is kept |
| Server.AudioServer.FilePlay | pkg/server/server.go:87-110 | state and results are those of the FilePlay workflow, and the invariant is kept |
| Server.AudioServer.FileStop | pkg/server/server.go:115-126 | state and error are those of the FileStop workflow |
| Server.AudioServer.StartFileRecoding | pkg/server/server.go:164-178 | state and error are those of the StartFileRecoding workflow |
| Server.AudioServer.StopFileRecoding | pkg/server/server.go:181-185 | state and error are those of the StopFileRecoding workflow |
| Server.AudioServer.PlayFromRecorder | pkg/server/server.go:188-206 | state and results are those of the PlayFromRecorder workflow |
| Server.AudioServer.StopFromRecorder | pkg/server/server.go:209-215 | state and error are those of the StopFromRecorder workflow |
| ServerProperties.StartSendingOutcomes | pkg/server/server.go:233-249 | a busy `ip:port` gives ErrDeviceIsBusy and changes nothing; otherwise send runs on a fresh handle, and the key is inserted on success while the handle is invoked on failure |
| ServerProperties.StopSendingOutcomes | pkg/server/server.go:251-263 | a present key has its handle invoked and is deleted; an absent one gives ErrDeviceNotFound |
| ServerProperties.StartReceiveIgnoresRecorderIP | pkg/server/server.go:265-283 | the receiving table is keyed by the port alone |
| ServerProperties.ReceiveStartThenStop | pkg/server/server.go:265-296 | a busy port gives ErrPortIsBusy; a started receive, once stopped, cancels then closes its writer and restores the table |
| ServerProperties.StopReceiveTwice | pkg/server/server.go:285-296 | a second stop gives ErrPortNotFound and changes nothing |
| ServerProperties.SendingStartThenStop | pkg/server/server.go:233-263 | start then stop restores the sending table and invokes the handle that start made |
| ServerProperties.FilePlayTables | pkg/server/server.go:87-110 | receiving is untouched; on failure sending is as before; on success the key is newly inserted |
| ServerProperties.FilePlayReadStep | pkg/server/server.go:88-91 | the file is read first; a read error is returned at once, with nothing else asked and no table changed |
| ServerProperties.FilePlayDecodeStep | pkg/server/server.go:92-95 | after a successful read the data is decoded; a decode error is returned before anything is started |
| ServerProperties.FilePlayReceiveStartStep | pkg/server/server.go:97-99 | then the player is asked to receive on ip and port; its error is returned before any table change |
| ServerProperties.FilePlaySendStep | pkg/server/server.go:101-103 | a busy key returns ErrDeviceIsBusy and a failing send returns its error after invoking its own handle; neither undoes the player's receive-start |
| ServerProperties.FilePlayPlayStep | pkg/server/server.go:105-109 | last the player is asked to play with the uuid and the decoded channels and rate; on failure the player's receive is stopped, then the send cancelled, the play error is returned and storage is never cleared |
| ServerProperties.FileStopSteps | pkg/server/server.go:115-126 | stop-sending, receive-stop, player-stop and clear-storage run in order, stopping at and returning the first error |
| ServerProperties.StartFileRecodingSteps | pkg/server/server.go:164-178 | the writer gets the channels cut to 16 bits; a failing receive does not close the writer; the recorder streams to `serverIP:port`; its failure stops the receive again |
| ServerProperties.StartFileRecodingClosesLast | pkg/server/server.go:164-178 | the writer is closed only when the run fails, and only as its very last step |
| ServerProperties.StopFileRecodingSteps | pkg/server/server.go:181-185 | always nil, always asks the recorder to stop, and is idempotent on the tables |
| ServerProperties.PlayFromRecorderSteps | pkg/server/server.go:188-206 | tables untouched; the uuid is returned even on failure; each failure is unwound in the Go order and keeps the original error |
| ServerProperties.PlayFromRecorderLog | pkg/server/server.go:188-206 | the exact log of each of the four outcomes, in terms of the replies of the player and the recorder |
| ServerProperties.PlayFromRecorderUnwinds | pkg/server/server.go:196-205 | a failed play is undone by receive-stop then clear-storage; a failed recorder start by receive-stop, player-stop, clear-storage; nothing else is asked |
| ServerProperties.StopFromRecorderSteps | pkg/server/server.go:209-215 | all four teardown calls in order, and nil |
| Nodes.CallKeepsSound | pkg/player/player.go:47-52 | a collaborator call keeps a node's handle discipline |
| Nodes.InsertKeepsSound | pkg/player/player.go:57 | storing the new cancel function under a free key keeps it |
| Nodes.DropKeepsSound | pkg/player/player.go:48 | invoking a new cancel function on failure keeps it |
| Nodes.RemoveKeepsSound | pkg/player/player.go:72-73 | cancelling and deleting a key keeps it |
| PlayerService.Player.constructor | pkg/player/player.go:79-91 | no port in use |
| PlayerService.Player.StartPlay | pkg/player/player.go:35-60 | a busy port gives "<port> is exist"; otherwise Receive then Play share one fresh list, the first error cancels, and success stores the cancel |
| PlayerService.Player.StopPlay | pkg/player/player.go:63-76 | cancels and frees a port in use; otherwise returns "<port> is exist" |
| RecorderService.Recorder.constructor | pkg/recorder/recorder.go:65-75 | no device being recorded |
| RecorderService.Recorder.StartRecord | pkg/recorder/recorder.go:28-47 | a busy device gives "<device> is busy"; the sender is opened before any cancel function exists; a Record failure cancels |
| RecorderService.Recorder.StopRecord | pkg/recorder/recorder.go:50-62 | cancels and frees the device, or gives "<device> is not exist" |
| RecoderService.Recoder.constructor | pkg/recoder/recoder.go:69-79 | no destination served |
| RecoderService.Recoder.StartRecode | pkg/recoder/recoder.go:28-51 | a busy destination gives "<dest> is exist"; a sender failure returns with no cancel function; a Recode failure cancels |
| RecoderService.Recoder.StopRecode | pkg/recoder/recoder.go:54-66 | cancels and frees the destination, or gives "<dest> is not exist" |
| MediaService.PortIsExistNamesPort | pkg/media/media.go:34 | the "receive port is exist" message names the port: different ports never get the same message |
| MediaService.Media.constructor | pkg/media/media.go:73-82 | no port received |
| MediaService.Media.StartReceive | pkg/media/media.go:29-55 | a busy port is refused; otherwise Receive then Play share one fresh empty cash, the first error cancels, and success stores the cancel |
| MediaService.Media.StopReceive | pkg/media/media.go:58-70 | as written: a port in use gets an error and stays in use; any other port calls a nil cancel function |
| MediaService.Media.StopReceiveIntended | pkg/media/media.go:58-70 | with the guard corrected: a port in use is cancelled and freed; any other port gets the error |
| MediaService.StopAsWrittenNeverFrees | pkg/media/media.go:29-70 | with accepting collaborators, a started port cannot be stopped, and an unknown port panics |
| MediaService.StopIntendedFrees | pkg/media/media.go:29-70 | with the corrected guard the same sequence frees the port |
| MediaController.Controller.constructor | pkg/controller/media/media.go:78-84 | no connection |
| MediaController.Controller.StartReceive | pkg/controller/media/media.go:21-48 | dial then RPC; either error is returned and the table is kept; success stores the connection under the host, replacing any previous one |
| MediaController.Controller.StopReceive | pkg/controller/media/media.go:51-75 | an unknown host gives "client <ip> not exist"; an RPC error keeps the connection; success closes and forgets it |
| MediaController.TwoPortsShareOneConnection | pkg/controller/media/media.go:22-73 | the key ignores the audio port: a second start replaces the connection, and after one stop the other port finds no client |
| AudioClient.NonEmpty | pkg/client/client.go:70 | what the play loop writes: only non-empty chunks, in order |
| AudioClient.NonEmptyAppend | pkg/client/client.go:64-75 | dropping empty chunks commutes with concatenation |
| AudioClient.Client.constructor | pkg/client/client.go:78-82 | empty pull |
| AudioClient.Client.Add | pkg/client/client.go:33-42 | a known device is refused with an error naming the connection, and the pull is unchanged; otherwise the device is added |
| AudioClient.Receiving | pkg/client/client.go:52-62 | every delivered chunk is pushed onto the cash, in order |
| AudioClient.PlayRound | pkg/client/client.go:70-72 | one round pops the front chunk and writes it unless it is empty; on an empty cash nothing is written |
| AudioClient.Play | pkg/client/client.go:64-75 | n rounds pop the first n chunks and write the non-empty ones to the device; the cash keeps the rest |
| AudioClient.ReceiveThenPlay | pkg/client/client.go:52-75 | from an empty cash, the device writes exactly the non-empty delivered chunks in order |
| HttpServerErrors.SentinelStatus | pkg/server/httpserver/error.go:11-36 | 404 exactly for the two not-found sentinels, 500 for everything else |
| HttpServerErrors.ErrorProcessing | pkg/server/httpserver/error.go:21-40 | the body is the error text; an explicit status wins; otherwise the sentinel status applies; the status is never -1 |
| HttpServerErrors.LookalikeIsNotSentinel | pkg/server/httpserver/error.go:25-36 | an error with a sentinel's text but not its identity gets 500 |
| HttpClientBuilder.BaseUrl | pkg/server/httpclient/builder.go:50-52 | the result starts with "http"; an address starting with it is kept, and any other gets "http://" |
| HttpClientBuilder.NewClient | pkg/server/httpclient/builder.go:49-58 | both transports are POSTs to the base URL plus their route |
| HttpClientBuilder.BaseUrlIdempotent | pkg/server/httpclient/builder.go:50-52 | normalising twice is normalising once |
| HttpClientBuilder.RoutesDiffer | pkg/server/httpclient/builder.go:13-16 | the file-play and file-stop URLs differ |
| HttpClientBuilder.SchemelessHostKept | pkg/server/httpclient/builder.go:50-52 | a host named "httpd:8080" is kept without a scheme |
| HttpClientBuilder.BaseUrlIntended | pkg/server/httpclient/builder.go:50-52 | with the test for an actual scheme, the result always has one |
| HttpClientBuilder.BaseUrlIntendedAgrees | pkg/server/httpclient/builder.go:50-52 | on an address that starts with "http://" or "https://" the intended and the as-written test both keep it unchanged |
| HttpClientBuilder.BaseUrlIntendedRepairs | pkg/server/httpclient/builder.go:50-52 | with the intended test the host "httpd:8080" gets the scheme "http://" |
| HttpClientBuilder.BaseUrlIntendedIdempotent | pkg/server/httpclient/builder.go:50-52 | normalising twice with the intended test is normalising once |

## Left out

- PlayerState and RecorderState (server.go:129-131, 218-220) only forward a query. Their results are lists the collaborators produce, so they add nothing beyond the forwarding delegations.
- JSON, HTTP and gRPC transport code, the loggers, and the command-line mains are not modelled. Only the status mapping and the client builder of the HTTP layer are.
- The record-file and bridge examples are not modelled, and neither is the UDP, TCP, WAV, playback or capture code. They are collaborators, seen only through their replies.
- Mutexes and goroutines are not modelled. Each method runs atomically, and the client's two loops are modelled as separate runs over finite inputs.
- The `ctx` arguments are not modelled. Each start uses a new cancel handle. The media node derives its context from the request context, while the other nodes use `context.Background()`; that difference is not modelled.
- `deviceLayout` is stored by NewServer but never read, so it is not modelled.
- The hostLayout comment says `"%s:%d"`, but the port is passed as a string. The layout is modelled with two string holes.
- `storage.List()` has no source within this model. It is modelled as a new empty queue.
- The Read loop's `fmt.Println` is not modelled.
- A connection Dial opens, or a sender TurnOnSender opens, is not closed when a later step fails. The model shows this: no close event is logged.
- Storage.Queue.Read: Read and Write after Close would dereference a nil list, which panics in Go. The model requires the queue to be open.
- AudioClient.Client.Add: `%v` of a connection prints an implementation-defined value. The model records the connection's identity instead of the text.
- HttpServerErrors.ErrorProcessing: the body is written as a string; its UTF-8 byte encoding is not modelled.
- MediaService.Media.StartReceive: the response is never set, so the model returns only the error.
- Byte slices that alias one another are modelled as values.
- The cash in pkg/cash/cash.go holds `[]int16` chunks, but the `cash` interface of pkg/client/client.go pushes and pops `[]byte`, so that type does not satisfy it in Go. The model makes `Cashes.Cash` generic in its element type to cover both: `Cash<int16>` for the media node, `Cash<byte>` for the client.

## Findings

| source | as written | input that shows it | evidently intended | confidence | as-written member | corrected member |
|---|---|---|---|---|---|---|
| pkg/converter/converter.go:22 | the loop runs while `i < len(src)-2`, dropping the last complete sample | any encoding of one sample: its two bytes decode to no sample | `i+1 < len(src)`, so every complete sample is decoded, and decoding inverts ToByte | high, not executed | Converter.EncodeThenDecodeAsWritten | Converter.EncodeThenDecodeIntended |
| pkg/media/media.go:63 | StopReceive tests `if isExist` instead of `!isExist` | start port "5000", then stop it: the error says the port is in use and the port stays taken; stopping an unknown port calls a nil cancel function | cancel and free a port in use, and refuse any other, as the player, recorder and recoder do | high, not executed | MediaService.StopAsWrittenNeverFrees | MediaService.StopIntendedFrees |
| pkg/server/httpclient/builder.go:50 | the prefix test is for "http", not for a scheme | "httpd:8080" is kept as it is, so its URLs have no scheme | add "http://" unless the address starts with "http://" or "https://" | medium, not executed | HttpClientBuilder.SchemelessHostKept | HttpClientBuilder.BaseUrlIntendedRepairs |
