# rtsp-to-kvs, modelled in Dafny

`rtsp-to-kvs` is a small Rust program over GStreamer. It reads an H.264 video
stream from an RTSP camera and either plays it in a local window (`play-back`)
or sends it to Amazon Kinesis Video Streams (`kvs`). `main` works in these steps:
1. It builds the `rtspsrc` source element and sets its location and optional credentials.
2. It builds an `rtph264depay` depayloader.
3. It builds the chain for the chosen sink.
4. It adds everything to one pipeline and links the chain.
5. It connects a pad-added handler. The handler links the source's RTP video pad to the depayloader once that pad appears.
6. It sets the pipeline to Playing and reads the bus until an Error or EOS message.
7. It sets the pipeline to Null.

The build calls and both `set_state` calls are followed by Rust's `?`, so the first of
them that fails ends the run. The handler's `src_pad.link` is different: its result is
matched and only logged. `Pipeline::new` cannot fail, and `pipeline.bus()` is unwrapped.

The model has seven modules:

- `Outcomes` holds `Option`, `Result` and `Outcome`. The `:-` operator on `Result` and `Outcome` is Rust's `?`.
- `Gst` models the GStreamer runtime as the program sees it:
  - an `Env` record of oracle decisions that the program cannot see: which factories exist, which (factory, property) pairs are refused, whether the bin refuses additions, which pad links fail their caps checks, and which state changes fail;
  - a `Pipeline` class whose fields the calls update in place: properties set per element, the element names in the bin, the links made in order, the state, and every `set_state` request.
- `Config` holds the already-parsed command line and `Cli::rtsp_config`.
- `Assembly` holds `create_element` as a function, and `rtspsrc`, `setup_playback` and `setup_kvssink` as methods that take the pipeline as a parameter and exit early on `?`.
- `Negotiation` holds the pad-added handler and its caps filter.
- `Bus` holds bus messages, the events after Playing, and how far the loop reads.
- `RtspToKvs` holds `main`: the dispatch on the subcommand, the build, the bus loop with the handler interleaved, and the shutdown.

Two facts about the code shape the model:

- `--stream-name` is a required flag, so `KvsConfig.streamName` is always present and no missing-stream-name error exists.
- An Error message only ends the bus loop. `main` then sets the pipeline to Null and returns `Ok(())` when that succeeds. `RtspToKvs.Run` states that its result does not depend on the events at all.

## Model

| member | source | states |
|---|---|---|
| Config.RtspConfigOf | src/main.rs:15-20 | the RTSP settings are the ones the chosen subcommand carries, for either subcommand |
| Config.SourceConfigIgnoresSink | src/main.rs:15-20 | the source is configured identically whichever sink is chosen |
| Assembly.CreateElement | src/main.rs:70-73 | creation succeeds exactly when the factory is registered; the element has the requested factory and name; a failure names the factory |
| Assembly.FirstMissing | src/main.rs:80-83 | the index of the first unregistered factory: all before it are registered, it is not, and it equals the length exactly when all are registered |
| Assembly.FirstMissingAt | src/main.rs:80-83 | any position that is unregistered and preceded only by registered factories is the one `FirstMissing` finds |
| Assembly.PlaybackFirstMissing | src/main.rs:80-83 | which of h264parse, avdec_h264, videoconvert, autovideosink is reported missing, case by case |
| Assembly.KvsFirstMissing | src/main.rs:111-112 | which of h264parse, kvssink is reported missing |
| Assembly.SourceProperties | src/main.rs:137-143 | one property per given setting; `location` first and only once, `user-id` exactly when a user id is given, `user-pw` exactly when a password is given, `user-id` before `user-pw`, no other key |
| Assembly.KvsSinkProperties | src/main.rs:113-118 | access-key, secret-key and stream-name in that order, then `aws-region` exactly when a region is given |
| Assembly.Applied | src/main.rs:113-118 | what a run of `try_set_property ?` calls sets: a prefix of the plan, all of it accepted, stopping exactly at the first refused key |
| Assembly.AppliedIsPrefixToFirstRefusal | src/main.rs:137-142 | the properties set are exactly the plan up to its first refused key |
| Assembly.AppliedAllIffAccepted | src/main.rs:113-118 | every property is set if and only if the element accepts every key |
| Assembly.KvsApplied | src/main.rs:113-118 | how far the Kinesis sink's properties get, for each key that may be the first refused |
| Gst.Pipeline.TrySetProperty | src/main.rs:137 | a refused key leaves the properties unchanged and names the element and key; an accepted one is appended to the element's properties |
| Assembly.RtspSrc | src/main.rs:135-145 | succeeds iff rtspsrc exists and takes every planned property; the properties set are the plan's prefix up to the first refusal; the error is the missing factory or the first refused key; the bin and links are untouched |
| Gst.Pipeline.AddMany | src/main.rs:85-92 | the batch is added iff the bin accepts additions and no name repeats within the batch or against the bin; otherwise nothing changes |
| Gst.Pipeline.LinkPads | src/main.rs:174 | a pad link is made iff both elements are in the bin, the sink pad is free and the runtime accepts it; a refused link changes nothing |
| Gst.ChainLinks | src/main.rs:93-99 | `link_many` links each element's src pad to the next element's sink pad, one link per consecutive pair |
| Gst.Pipeline.LinkMany | src/main.rs:93-99 | on success all chain links are appended in order and none was refused; on failure a strict prefix of them was made and the next one could not be linked |
| Assembly.ChainSinkFree | src/main.rs:93-99 | in a chain of distinct elements new to the bin, the links made before the k-th leave its sink pad free |
| Assembly.FreshChainFailureIsRefusal | src/main.rs:85-99 | when a freshly added chain fails to link, the runtime refused one of its links, since every pad involved was free |
| Assembly.AddAndLink | src/main.rs:85-99 | `add_many` then `link_many` on the batch without its head: succeeds iff the add is accepted and no chain link is refused; an add failure changes nothing; a link failure leaves the batch added and a strict prefix of the chain linked |
| Assembly.SetupPlayback | src/main.rs:75-102 | succeeds iff all four factories exist, the bin takes the batch and no link is refused; a creation failure names the first missing factory and leaves the bin and links unchanged; the chain depay to videosink is linked on success |
| Assembly.SetKvsProperties | src/main.rs:113-118 | the Kinesis sink's properties are set in order up to the first refusal; the error names the refused key; the bin is untouched |
| Assembly.SetupKvsSink | src/main.rs:104-133 | succeeds iff both factories exist, every sink property is accepted, the bin takes the batch and no link is refused; every property is set before anything is added; a property refusal leaves the bin and links unchanged |
| Assembly.InstallKvsSink | src/main.rs:113-130 | once both Kinesis elements exist: the sink's properties up to the first refusal, then `add_many` and `link_many`; succeeds iff every property is accepted, the bin takes the batch and no link is refused; a property refusal leaves the bin and links unchanged |
| RtspToKvs.SinkElementsDistinct | src/main.rs:85-92 | the elements each setup adds have distinct names, and the linked chain is the batch without the source |
| RtspToKvs.EmptyBinTakes | src/main.rs:85-92 | an empty bin takes either setup's batch unless it refuses additions |
| RtspToKvs.SourceNotStaticallyLinked | src/main.rs:85-99 | the source and depayloader are added, yet no static link touches the source or ends on the depayloader's sink pad |
| RtspToKvs.PlaybackGraph | src/main.rs:80-99 | the playback bin is {source, rtph264depay, h264parse, avdec_h264, videoconvert, videosink} linked depay to h264parse to avdec_h264 to videoconvert to videosink |
| RtspToKvs.KvsGraph | src/main.rs:111-130 | the Kinesis bin is {source, rtph264depay, h264parse, kvssink} linked depay to h264parse to kvssink |
| RtspToKvs.SinkError | src/main.rs:158-159 | the error a failed setup returns: a missing factory exactly when one of the setup's factories is unregistered, a refused Kinesis sink key only for kvs and only for a key the sink refuses, AddFailed only when the bin refuses additions, LinkFailed only when the bin takes the batch and a chain link is refused |
| RtspToKvs.SetupSink | src/main.rs:157-160 | the subcommand picks the setup; on an empty bin it succeeds iff that setup's factories, properties, addition and links all succeed, and otherwise returns `SinkError`; any failure before linking leaves the bin empty; play-back sets no property, and kvs sets the Kinesis plan up to its first refusal once both elements exist |
| RtspToKvs.BuildProps | src/main.rs:135-160 | the properties the build leaves set, for every outcome: only the source and the Kinesis sink hold any, each a prefix of its plan, and the sink holds some only after the source took its whole plan |
| RtspToKvs.BuildOkProps | src/main.rs:135-160 | after a successful build the source holds exactly its whole plan, the Kinesis sink exactly its whole plan when chosen, and nothing else holds properties |
| RtspToKvs.BuildError | src/main.rs:155-159 | the error a failed build returns, in the order `main` runs the steps: CreateFailed("rtspsrc") exactly when rtspsrc is unregistered, a refused source key only for a key rtspsrc refuses, CreateFailed("rtph264depay") only when it is unregistered, and the setup's errors only once the source and depayloader were made |
| RtspToKvs.Build | src/main.rs:154-160 | the build succeeds iff the source, depayloader and chosen setup all succeed, and otherwise returns `BuildError`; on success the bin holds the chosen batch and exactly its static links; an earlier failure leaves the bin and links empty; the properties set are `BuildProps` in every case |
| Negotiation.IsRtpVideo | src/main.rs:173 | the caps filter: a pad passes only when its structure is named application/x-rtp and its `media` field is the string "video" |
| Negotiation.MissingMediaIsNotVideo | src/main.rs:173 | a caps structure without a string `media` field is not RTP video |
| Negotiation.OtherMediaOrCapsAreIgnored | src/main.rs:173 | a structure not named exactly application/x-rtp, or whose media is another string, is not RTP video |
| Negotiation.HandledPad | src/main.rs:166-178 | the handler's effect on the links: either none or the new pad's link appended, and appended exactly when the depayloader's sink pad is free, the caps are RTP video and the runtime accepts the link |
| Negotiation.OnPadAdded | src/main.rs:162-179 | nothing happens once the depayloader's sink pad is linked; otherwise a link is requested only for RTP video caps; the pipeline gains exactly that one link when it is accepted and nothing otherwise; the new links are `HandledPad` of the old ones |
| Gst.AtMostOneLinkInto | src/main.rs:166-169 | in a valid pipeline at most one link ends on any sink pad, the depayloader's included |
| RtspToKvs.ExtraLinkIntoDepay | src/main.rs:166-169 | a link made while playing ends on the depayloader's sink pad, so that pad is no longer free |
| RtspToKvs.PadAddedKeeps | src/main.rs:162-179 | a pad announcement adds at most the one link from the source into the depayloader, and only for RTP video while that pad is free |
| Bus.Consumed | src/main.rs:183-203 | the loop reads up to and including the first Error or EOS and no further; no earlier event ends it; with neither it reads everything |
| Bus.ConsumedIsFirstEnd | src/main.rs:183-203 | the count `Consumed` gives is the only one that stops right after an ending event without passing one |
| Bus.Levels | src/main.rs:186-220 | Error and EOS are logged first at error level and nothing else is; a Warning first at warn level, an Info first at info level; EOS logs exactly one line; Error, Warning and Info log one line, plus a debug line exactly when they carry debug detail; other messages log nothing |
| RtspToKvs.Dispatch | src/main.rs:162-202 | one event: an announced pad runs the handler, whose link is appended exactly when the depayloader's sink pad was free, the caps are RTP video and the runtime accepts it; a bus message leaves the links alone and stops the loop exactly when it is an Error or EOS |
| RtspToKvs.Step | src/main.rs:162-202 | one event's effect on the links: a bus message changes nothing; a pad adds at most its own link into the depayloader's sink pad, and only when its caps are RTP video and that pad was free |
| RtspToKvs.AfterEvents | src/main.rs:183-203 | the links after a run of events extend the starting links by at most one link per event, each from the source into the depayloader's sink pad |
| RtspToKvs.ConsumeBus | src/main.rs:183-203 | the loop consumes exactly `Consumed(events)` events, and the links become `AfterEvents` of the consumed events: each one applied in order, as `Dispatch` applies it |
| RtspToKvs.StepKeeps | src/main.rs:162-202 | any one event keeps the bound: beyond the starting links at most one link, from the source into the depayloader's sink pad, and none before an RTP video pad |
| RtspToKvs.PlayingLinksBound | src/main.rs:162-203 | over any sequence of events the handler adds at most one link, from the source into the depayloader's sink pad, and none unless an RTP video pad was announced |
| RtspToKvs.NoVideoPadNoLink | src/main.rs:173-178 | bus messages and pads without RTP video caps never change the links |
| RtspToKvs.FirstVideoPadLinked | src/main.rs:166-177 | the first RTP video pad announced is linked to the depayloader's sink pad when that pad is free and the runtime accepts the link |
| Gst.Pipeline.constructor | src/main.rs:154 | a new pipeline holds no elements, links or properties, is in state Null and has had no state requests |
| Gst.Pipeline.SetState | src/main.rs:180 | every request is recorded; the state changes iff the runtime does not refuse it |
| RtspToKvs.Run | src/main.rs:147-207 | `main` returns Ok iff the build, Playing and Null all succeed, whatever the bus delivered, Error included; otherwise it returns `BuildError`, or StateChangeFailed(Playing), or StateChangeFailed(Null), whichever step failed first; Playing is requested once after a good build and Null exactly once after the loop; the loop reads exactly `Consumed(events)`; the final state is Null unless only the Null request was refused; the bin holds the chosen batch and the links are the static chain followed by the handler's effect on the consumed events, so at most one more link; the properties are `BuildProps`, the whole source plan and, for kvs, the whole sink plan after a good build; a failed build leaves the bin and links as `Build` left them |

## Left out

- Argument parsing with clap, `env_logger::init` and `gst::init` are left out. The model starts from the parsed `Command`.
- The log text of the `gst_log` macros is left out. `Bus.Levels` records only the level of each line. The lines the loop and the handler log are not part of the state the methods record.
- The pipeline's name and `pipeline.bus().unwrap()` are left out.
- `.expect` on the depayloader's static sink pad and on the new pad's caps is left out. The handler's pad always has caps and the depayloader always has a "sink" pad. These panics are not modelled.
- The pad-added callback runs on a GStreamer thread. The model interleaves its calls with bus messages as one sequence of events. Concurrency is not modelled.
- The bus iterator has no timeout and blocks. It becomes a finite sequence of events. Pad announcements after the terminal message are not consumed.
- GStreamer's own behaviour is not part of this model. Caps negotiation, element registration, property type checks and asynchronous state changes are decided by the `Env` oracle. `set_state` succeeds or fails synchronously.
- Gst.Pipeline.AddMany: modelled as all-or-nothing. gstreamer-rs adds elements one by one and stops at the first refusal, and that library code is not part of this model.
- `link_many` lets GStreamer choose compatible pads. The model names every static link's pads "src" and "sink", and these names are placeholders: kvssink's video input, for one, is a request pad.
- Elements are identified by their instance names, and the model assumes the pipeline holds only what the program put there.
