# Elderly-care companion: a Dafny model of its core

The system is a voice companion for elderly people and their families. An
Android app records the elder's speech as 16-bit PCM and streams it to a
live-audio model, plays the model's spoken replies, scans documents with the
camera, reads out scheduled reminders and lets family members schedule
notifications. A Python backend keeps users and family relationships,
conversations, memoirs extracted from conversations, health records,
medicines and notifications, and it remembers the voice session's
resumption handle.

The model covers the parts of both sides that compute or keep state:

- `common.dfy` (module `Common`): the shared `Option` value, list helpers
  (`Filter`, `Count`, `Page`, `Join`), string helpers (whitespace trimming
  under Kotlin's and Python's rules, substring search, number printing),
  Python truthiness and time units (times are integers in microseconds).
- `sorting.dfy` (module `Sorting`): a stable insertion sort by key, proved
  sorted and a permutation. It stands in for the SQL `ORDER BY` clauses and
  for Python's `sorted`.
- `pcm.dfy`, `listening.dfy`, `audio.dfy`: little-endian PCM packing, the
  background listening service, and the recorder/player of the main screen.
- `scanner.dfy`, `camera.dfy`: the document scanner's orientation and resize
  arithmetic, and the camera helper's scale factor and result handling.
- `datacache.dfy`: the app's two-level (memory and disk) data cache.
- `schedule.dfy`, `voice.dfy`, `notificationform.dfy`: the app's schedule
  store, the voice-reminder service, and the family notification form.
- `memoirextraction.dfy`, `dailymemoir.dfy`, `memoirs.dfy`: memoir
  extraction from conversation text, the daily memoir batch, and the memoir
  store (tags, timeline, export, statistics).
- `health.dfy`, `medicines.dfy`: vital-sign records, alerts and trends;
  medicines, doses, adherence and interaction checks.
- `session.dfy`, `conversations.dfy`, `users.dfy`, `notifications.dfy`: the
  session-handle file, conversations and messages, users and family
  relationships, and notifications.

A service that changes state in place is a `class` whose fields are the
tables or lists it owns. Its methods carry `modifies` clauses and state the
whole new state. The rules each service follows are pure functions, with
lemmas that prove what the service promises. Where the source runs a loop,
the model keeps it as a method with invariants, proved equal to the
function. Database queries are modelled as filters and sorts over the rows
of one table. The clock, the database session, the file system, the
network, the language model and the Android framework become parameters, or
they are left out (see below).

## Model

| member | source | states |
|---|---|---|
| Pcm.SampleRoundTrip | backend/GeminiLiveDemo/app/src/main/java/com/example/geminilivedemo/GeminiListeningService.kt:248-250 | splitting a sample into its low and high octets and joining them again gives the sample back |
| Pcm.BytesRoundTrip | backend/GeminiLiveDemo/app/src/main/java/com/example/geminilivedemo/AudioManager.kt:269-276 | every pair of octets is the encoding of exactly one sample, so reading a sample and writing it back gives the same two octets |
| Pcm.Pack | backend/GeminiLiveDemo/app/src/main/java/com/example/geminilivedemo/AudioManager.kt:126-130 | a chunk of n samples is 2n octets, sample i at octets 2i (low) and 2i+1 (high) |
| Pcm.Unpack | backend/GeminiLiveDemo/app/src/main/java/com/example/geminilivedemo/AudioManager.kt:269-276 | n octets decode to n/2 samples, sample i read from octets 2i and 2i+1 |
| Pcm.UnpackPack | backend/GeminiLiveDemo/app/src/main/java/com/example/geminilivedemo/AudioManager.kt:259-261 | decoding the octets of an encoded chunk gives back its samples |
| Pcm.PackUnpack | backend/GeminiLiveDemo/app/src/main/java/com/example/geminilivedemo/AudioManager.kt:269-276 | an even-length octet string re-encodes to itself after decoding |
| Pcm.UnpackIgnoresOddByte | backend/GeminiLiveDemo/app/src/main/java/com/example/geminilivedemo/AudioManager.kt:270 | an odd trailing octet is never read |
| Pcm.PackAppend | backend/GeminiLiveDemo/app/src/main/java/com/example/geminilivedemo/AudioManager.kt:103-108 | encoding two pieces apart and joining the octets equals encoding them joined, so sending in chunks loses and reorders nothing |
| ListeningService.ConvertToBytes | backend/GeminiLiveDemo/app/src/main/java/com/example/geminilivedemo/GeminiListeningService.kt:245-253 | the array handed to Base64 holds 2·length octets, the little-endian encoding of exactly the first length samples |
| ListeningService.GeminiListeningService.constructor | backend/GeminiLiveDemo/app/src/main/java/com/example/geminilivedemo/GeminiListeningService.kt:38 | a new service is not listening, holds no recorder, runs no capture job and has sent nothing |
| ListeningService.GeminiListeningService.StartListening | backend/GeminiLiveDemo/app/src/main/java/com/example/geminilivedemo/GeminiListeningService.kt:155-193 | a no-op while listening; otherwise listening starts exactly when the recorder initialises, a recorder that fails to initialise is kept unused, and a denied permission changes nothing |
| ListeningService.GeminiListeningService.StopListening | backend/GeminiLiveDemo/app/src/main/java/com/example/geminilivedemo/GeminiListeningService.kt:195-213 | a no-op when idle; otherwise the flag is cleared, the capture job cancelled and the recorder released |
| ListeningService.GeminiListeningService.ToggleListening | backend/GeminiLiveDemo/app/src/main/java/com/example/geminilivedemo/GeminiListeningService.kt:215-221 | stops when listening; otherwise ends up listening exactly when the recorder initialises |
| ListeningService.GeminiListeningService.CaptureStep | backend/GeminiLiveDemo/app/src/main/java/com/example/geminilivedemo/GeminiListeningService.kt:227-235 | one capture pass sends the encoding of exactly the samples read, and only while listening and when the read returned something |
| AudioPipeline.SumSquaresBound | backend/GeminiLiveDemo/app/src/main/java/com/example/geminilivedemo/AudioManager.kt:138-144 | the sum of squares of n 16-bit samples is at most n·2^30 |
| AudioPipeline.CalculateAudioLevel | backend/GeminiLiveDemo/app/src/main/java/com/example/geminilivedemo/AudioManager.kt:138-144 | the level is the mean square of the first size samples rounded down, and 0 for a non-positive size |
| AudioPipeline.AudioLevelRange | backend/GeminiLiveDemo/app/src/main/java/com/example/geminilivedemo/AudioManager.kt:143 | the mean square lies in [0, 2^30], so converting it to a 32-bit Int never truncates |
| AudioPipeline.AsShortArray | backend/GeminiLiveDemo/app/src/main/java/com/example/geminilivedemo/AudioManager.kt:269-276 | the samples are exactly the little-endian decoding of the octets, an odd last octet dropped |
| AudioPipeline.ClampVolume | backend/GeminiLiveDemo/app/src/main/java/com/example/geminilivedemo/AudioManager.kt:285 | the volume lies in [0, 1], in-range values are kept, and values below or above go to the nearest bound |
| AudioPipeline.AudioManager.constructor | backend/GeminiLiveDemo/app/src/main/java/com/example/geminilivedemo/AudioManager.kt:28-34 | a new manager is neither recording nor playing, has no pending samples, has sent no chunk and has no track |
| AudioPipeline.AudioManager.StartAudioInput | backend/GeminiLiveDemo/app/src/main/java/com/example/geminilivedemo/AudioManager.kt:50-89 | a no-op while recording; otherwise the recording flag is raised before the permission and initialisation checks, so it stays raised when either fails, and the recorder records only when it initialises |
| AudioPipeline.AudioManager.RecordChunk | backend/GeminiLiveDemo/app/src/main/java/com/example/geminilivedemo/AudioManager.kt:117-136 | all pending samples leave as one little-endian chunk and the pending list is emptied; an empty pending list sends nothing |
| AudioPipeline.AudioManager.CaptureStep | backend/GeminiLiveDemo/app/src/main/java/com/example/geminilivedemo/AudioManager.kt:98-110 | a positive read appends exactly the samples read, and reaching 512 pending samples sends them as one chunk; the octets sent plus those pending equal the octets held before plus those read |
| AudioPipeline.AudioManager.StopAudioInput | backend/GeminiLiveDemo/app/src/main/java/com/example/geminilivedemo/AudioManager.kt:146-163 | a no-op when not recording; otherwise the flag is cleared and pending samples are flushed as one chunk; an initialised recorder is then stopped and released, while stopping one that never initialised fails (`ok` false) and leaves it in place |
| AudioPipeline.AudioManager.PlayNextAudioChunk | backend/GeminiLiveDemo/app/src/main/java/com/example/geminilivedemo/AudioManager.kt:191-224 | the queue is played from its head in order until it is empty, the track is created on first use at the default volume, and playback ends idle |
| AudioPipeline.AudioManager.IngestAudioChunkToPlay | backend/GeminiLiveDemo/app/src/main/java/com/example/geminilivedemo/AudioManager.kt:165-189 | a chunk that decodes is played after everything queued before it; one that does not decode is dropped |
| AudioPipeline.AudioManager.SetPlaybackVolume | backend/GeminiLiveDemo/app/src/main/java/com/example/geminilivedemo/AudioManager.kt:284-288 | an existing track gets the clamped volume; with no track nothing changes |
| ScannerImage.Rotate90 | backend/GeminiLiveDemo/app/src/main/java/com/example/geminilivedemo/ScannerActivity.java:336-338 | a quarter turn clockwise swaps width and height and sends every pixel to its rotated position |
| ScannerImage.Rotate180 | backend/GeminiLiveDemo/app/src/main/java/com/example/geminilivedemo/ScannerActivity.java:339-341 | a half turn keeps the size and sends pixel (r, c) to the opposite corner's position |
| ScannerImage.Rotate270 | backend/GeminiLiveDemo/app/src/main/java/com/example/geminilivedemo/ScannerActivity.java:342-344 | a quarter turn counter-clockwise swaps width and height and sends every pixel to its rotated position |
| ScannerImage.FlipHorizontal | backend/GeminiLiveDemo/app/src/main/java/com/example/geminilivedemo/ScannerActivity.java:345-347 | mirroring left to right keeps the size and reverses every row |
| ScannerImage.FlipVertical | backend/GeminiLiveDemo/app/src/main/java/com/example/geminilivedemo/ScannerActivity.java:348-350 | mirroring top to bottom keeps the size and reverses the order of the rows |
| ScannerImage.RotateQuarterInverse | backend/GeminiLiveDemo/app/src/main/java/com/example/geminilivedemo/ScannerActivity.java:336-344 | the 90 and 270 degree turns undo each other |
| ScannerImage.FlipsInvolutive | backend/GeminiLiveDemo/app/src/main/java/com/example/geminilivedemo/ScannerActivity.java:339-350 | each flip and the half turn is its own inverse, and the half turn is the two flips together |
| ScannerImage.FixImageOrientation | backend/GeminiLiveDemo/app/src/main/java/com/example/geminilivedemo/ScannerActivity.java:329-370 | the five handled orientation tags select a turn or a flip, the quarter turns swap the sides and the rest keep them; every other tag and a failed EXIF read give back the input unchanged |
| ScannerImage.FitScale | backend/GeminiLiveDemo/app/src/main/java/com/example/geminilivedemo/ScannerActivity.java:287 | the resize factor is positive and is 800 over one of the two sides |
| ScannerImage.FitWithinBound | backend/GeminiLiveDemo/app/src/main/java/com/example/geminilivedemo/ScannerActivity.java:282-291 | after fitting both sides are at most 800, and the longer side of an oversized image becomes exactly 800 |
| ScannerImage.FitIdempotent | backend/GeminiLiveDemo/app/src/main/java/com/example/geminilivedemo/ScannerActivity.java:286 | an image within 800 x 800 keeps its size, so fitting a fitted image changes nothing |
| ScannerImage.FitExample | backend/GeminiLiveDemo/app/src/main/java/com/example/geminilivedemo/ScannerActivity.java:284-290 | a 1600 x 1200 photo is sent as 800 x 600 |
| ScannerImage.Scale | backend/GeminiLiveDemo/app/src/main/java/com/example/geminilivedemo/ScannerActivity.java:290 | scaling yields a bitmap of exactly the requested size |
| ScannerImage.CaptionFor | backend/GeminiLiveDemo/app/src/main/java/com/example/geminilivedemo/ScannerActivity.java:315-316 | the caption handed on starts with "Medicine image captured - " |
| ScannerImage.TempNameInjective | backend/GeminiLiveDemo/app/src/main/java/com/example/geminilivedemo/ScannerActivity.java:218-219 | captures taken at different milliseconds never share a temporary file |
| ScannerImage.ScannerActivity.constructor | backend/GeminiLiveDemo/app/src/main/java/com/example/geminilivedemo/ScannerActivity.java:52 | a new scanner has no cached captures, has started nothing and has not finished |
| ScannerImage.ScannerActivity.CaptureImage | backend/GeminiLiveDemo/app/src/main/java/com/example/geminilivedemo/ScannerActivity.java:207-253 | without a ready camera nothing is captured; otherwise the capture goes to temp_image_<millis>.jpg, which exists afterwards exactly when the camera reports it saved |
| ScannerImage.ScannerActivity.ProcessImage | backend/GeminiLiveDemo/app/src/main/java/com/example/geminilivedemo/ScannerActivity.java:255-327 | a missing or undecodable file ends processing with nothing deleted or sent; otherwise the orientation-fixed, fitted image is sent at JPEG quality 70 and the temporary file is deleted when deletion succeeds; a side that scales to zero pixels throws before anything is deleted or sent |
| Camera.LongerSide | backend/GeminiLiveDemo/app/src/main/java/com/example/geminilivedemo/CameraManager.kt:110-113 | the side the factor comes from is the larger of the two, the width only when strictly wider |
| Camera.CalculateScaleFactor | backend/GeminiLiveDemo/app/src/main/java/com/example/geminilivedemo/CameraManager.kt:109-120 | the sample size is always 1, 2, 4 or 8 |
| Camera.ScaleFactorSpec | backend/GeminiLiveDemo/app/src/main/java/com/example/geminilivedemo/CameraManager.kt:114-119 | the sample size is the smallest of 1, 2, 4 whose multiple of the limit covers the longer side, and 8 when none does; it is 1 exactly when the photo is within the limit |
| Camera.ScaleFactorMonotone | backend/GeminiLiveDemo/app/src/main/java/com/example/geminilivedemo/CameraManager.kt:109-120 | a larger photo never gets a smaller sample size |
| Camera.ScaleFactorBound | backend/GeminiLiveDemo/app/src/main/java/com/example/geminilivedemo/CameraManager.kt:109-120 | up to four times the limit, sampling brings the longer side within the limit; beyond eight times the cap leaves it larger |
| Camera.PreviewSize | backend/GeminiLiveDemo/app/src/main/java/com/example/geminilivedemo/CameraManager.kt:122-131 | the preview is as wide as the screen and its height is the bitmap's height scaled by the same factor, within half a pixel |
| Camera.CameraManager.constructor | backend/GeminiLiveDemo/app/src/main/java/com/example/geminilivedemo/CameraManager.kt:28-29 | a new manager remembers no photo and has delivered nothing |
| Camera.CameraManager.CreateImageFile | backend/GeminiLiveDemo/app/src/main/java/com/example/geminilivedemo/CameraManager.kt:56-66 | the file is named JPEG_<stamp>_<unique>.jpg and becomes the current photo |
| Camera.CameraManager.HandleCameraResult | backend/GeminiLiveDemo/app/src/main/java/com/example/geminilivedemo/CameraManager.kt:68-107 | a capture results exactly for the camera request with RESULT_OK, a remembered photo and a photo that decodes; it is decoded with the sample size for the photo's bounds and compressed at the configured quality, and it is handed to the callback exactly when a callback is set |
| DataCache.CacheKey | frontend/GeminiLiveDemo/app/src/main/java/com/example/geminilivedemo/data/DataCacheManager.kt:57 | a cached list's key is its kind followed by an underscore and the id |
| DataCache.LookupPath | frontend/GeminiLiveDemo/app/src/main/java/com/example/geminilivedemo/data/DataCacheManager.kt:84-127 | a memory hit is a fresh item held in memory; a disk hit needs the string and a positive timestamp on disk, not expired; the disk is consulted only when memory has no fresh item |
| DataCache.PathResult | frontend/GeminiLiveDemo/app/src/main/java/com/example/geminilivedemo/data/DataCacheManager.kt:91-116 | a lookup returns data exactly on a memory or disk hit |
| DataCache.CacheRoundTrip | frontend/GeminiLiveDemo/app/src/main/java/com/example/geminilivedemo/data/DataCacheManager.kt:54-116 | a list cached at time t is read back unchanged until five minutes have passed, whether or not memory still holds it |
| DataCache.ExpiryMonotone | frontend/GeminiLiveDemo/app/src/main/java/com/example/geminilivedemo/data/DataCacheManager.kt:47 | an item is fresh when written and, once expired, stays expired |
| DataCache.CacheExpires | frontend/GeminiLiveDemo/app/src/main/java/com/example/geminilivedemo/data/DataCacheManager.kt:47 | after five minutes nothing is returned for an entry written at time t |
| DataCache.WithoutPrefix | frontend/GeminiLiveDemo/app/src/main/java/com/example/geminilivedemo/data/DataCacheManager.kt:284-291 | exactly the entries whose key does not start with the prefix remain, with their values |
| DataCache.NullTypeKeepsTypedEntries | frontend/GeminiLiveDemo/app/src/main/java/com/example/geminilivedemo/data/DataCacheManager.kt:282-293 | with no data type the prefix searched for is "null_<id>", which no cache key has, so every cached list of the user survives the clear |
| DataCache.ListKeys | frontend/GeminiLiveDemo/app/src/main/java/com/example/geminilivedemo/data/DataCacheManager.kt:57 | every kind's key for the user is among the keys to clear |
| DataCache.UserKeys | frontend/GeminiLiveDemo/app/src/main/java/com/example/geminilivedemo/data/DataCacheManager.kt:66-67 | every kind's key for the user, and its timestamp key, is among the disk keys to clear |
| DataCache.DataCacheManager.constructor | frontend/GeminiLiveDemo/app/src/main/java/com/example/geminilivedemo/data/DataCacheManager.kt:15 | a new cache holds nothing in memory or on disk |
| DataCache.DataCacheManager.CleanupMemoryCache | frontend/GeminiLiveDemo/app/src/main/java/com/example/geminilivedemo/data/DataCacheManager.kt:332-345 | at most 100 entries stay in memory and a cache within that size is untouched; only the oldest entries are dropped, and kept entries keep their values |
| DataCache.DataCacheManager.Cache | frontend/GeminiLiveDemo/app/src/main/java/com/example/geminilivedemo/data/DataCacheManager.kt:54-79 | the list and its timestamp are written to disk under the kind's key; in memory the entry is added, and nothing is evicted while at most 100 entries are held; above that exactly 100 remain, every evicted entry is no newer than every kept one, and kept entries keep their values |
| DataCache.DataCacheManager.GetCached | frontend/GeminiLiveDemo/app/src/main/java/com/example/geminilivedemo/data/DataCacheManager.kt:84-127 | the result is the two-tier lookup's; a disk hit is restored into memory, an expired disk entry is removed with its timestamp from both tiers, and nothing else changes |
| DataCache.DataCacheManager.ClearCacheForUser | frontend/GeminiLiveDemo/app/src/main/java/com/example/geminilivedemo/data/DataCacheManager.kt:279-313 | with a data type, that key and its timestamp leave both tiers; with none, only keys starting with "null_<id>" (and their timestamp keys) are removed |
| DataCache.DataCacheManager.ClearAllForUser | frontend/GeminiLiveDemo/app/src/main/java/com/example/geminilivedemo/data/DataCacheManager.kt:282-293 | the intended clear of a user's whole cache: every list of the user and its timestamp leave both tiers, and nothing else does |
| DataCache.DataCacheManager.ClearAllCache | frontend/GeminiLiveDemo/app/src/main/java/com/example/geminilivedemo/data/DataCacheManager.kt:317-328 | both tiers become empty |
| Schedules.IndexOfId | backend/GeminiLiveDemo/app/src/main/java/com/example/geminilivedemo/data/ScheduleManager.kt:145 | the index of the first schedule with the id, and -1 exactly when none has it |
| Schedules.Take | backend/GeminiLiveDemo/app/src/main/java/com/example/geminilivedemo/data/ScheduleManager.kt:225 | the first n elements, or all of them when there are fewer |
| Schedules.FamilySchedulesSpec | backend/GeminiLiveDemo/app/src/main/java/com/example/geminilivedemo/data/ScheduleManager.kt:113-139 | a family member sees exactly the schedules they created for the elderly users they asked about |
| Schedules.UpcomingSpec | backend/GeminiLiveDemo/app/src/main/java/com/example/geminilivedemo/data/ScheduleManager.kt:218-226 | upcoming schedules are pending, due after now, in time order, at most limit of them; a pending one left out is due no earlier than every one returned, and only when the limit was reached |
| Schedules.ReplaceFirst | backend/GeminiLiveDemo/app/src/main/java/com/example/geminilivedemo/data/ScheduleManager.kt:277-280 | replacing keeps the list's length |
| Schedules.MarkCompleteSpec | backend/GeminiLiveDemo/app/src/main/java/com/example/geminilivedemo/data/ScheduleManager.kt:195-213 | completion touches only the first schedule with the id, which becomes completed; an unknown id changes nothing |
| Schedules.ReplaceInStoreKeyed | backend/GeminiLiveDemo/app/src/main/java/com/example/geminilivedemo/data/ScheduleManager.kt:266-290 | replacing within the store keeps every list under its own elderly id |
| Schedules.ScheduleManager.constructor | backend/GeminiLiveDemo/app/src/main/java/com/example/geminilivedemo/data/ScheduleManager.kt:12-22 | a new manager stores no schedules |
| Schedules.ScheduleManager.LoadElderlySchedules | backend/GeminiLiveDemo/app/src/main/java/com/example/geminilivedemo/data/ScheduleManager.kt:84-110 | an unknown elderly id gives an empty list, and every schedule in a list belongs to that elderly user |
| Schedules.ScheduleManager.SaveElderlySchedule | backend/GeminiLiveDemo/app/src/main/java/com/example/geminilivedemo/data/ScheduleManager.kt:235-264 | the schedule is appended to its elderly user's list, which is created if absent |
| Schedules.ScheduleManager.SaveSchedule | backend/GeminiLiveDemo/app/src/main/java/com/example/geminilivedemo/data/ScheduleManager.kt:25-64 | a schedule with a null or empty id gets a fresh one, is marked as created by the family member, and is appended both to the full list and to its elderly user's list |
| Schedules.ScheduleManager.GetSchedulesForFamilyMember | backend/GeminiLiveDemo/app/src/main/java/com/example/geminilivedemo/data/ScheduleManager.kt:113-139 | the family member's schedules for the given elderly users, in time order |
| Schedules.ScheduleManager.UpdateElderlySchedule | backend/GeminiLiveDemo/app/src/main/java/com/example/geminilivedemo/data/ScheduleManager.kt:266-290 | the first entry with the same id in the schedule's elderly list is replaced |
| Schedules.ScheduleManager.UpdateSchedule | backend/GeminiLiveDemo/app/src/main/java/com/example/geminilivedemo/data/ScheduleManager.kt:142-164 | false with nothing changed when no schedule has the id; otherwise the first one is replaced by the update carrying that id, and the elderly list is updated |
| Schedules.ScheduleManager.RemoveElderlySchedule | backend/GeminiLiveDemo/app/src/main/java/com/example/geminilivedemo/data/ScheduleManager.kt:292-313 | every entry with the id leaves the given elderly list, if that list exists |
| Schedules.ScheduleManager.DeleteSchedule | backend/GeminiLiveDemo/app/src/main/java/com/example/geminilivedemo/data/ScheduleManager.kt:167-189 | false with nothing changed when no schedule has the id; otherwise every schedule with it leaves the full list, and the first one's elderly list |
| Schedules.ScheduleManager.MarkScheduleComplete | backend/GeminiLiveDemo/app/src/main/java/com/example/geminilivedemo/data/ScheduleManager.kt:192-215 | true exactly when a schedule has the id; only the first one becomes completed, in the full list and in its elderly list (the stored map after completion), and nothing changes otherwise |
| Schedules.ScheduleManager.GetUpcomingSchedules | backend/GeminiLiveDemo/app/src/main/java/com/example/geminilivedemo/data/ScheduleManager.kt:218-226 | at most limit of the elderly user's schedules, all pending and due after now, in time order |
| VoiceReminders.ClassifySpec | backend/GeminiLiveDemo/app/src/main/java/com/example/geminilivedemo/VoiceNotificationService.kt:133-143 | only schedules due in (0, 300] seconds get a reminder: the immediate one up to a minute ahead and the advance one after that, never both; an advance reminder announces between 1 and 5 whole minutes |
| VoiceReminders.FirstInWindow | backend/GeminiLiveDemo/app/src/main/java/com/example/geminilivedemo/VoiceNotificationService.kt:132-133 | a schedule found is in the list and due within the window |
| VoiceReminders.FirstInWindowSpec | backend/GeminiLiveDemo/app/src/main/java/com/example/geminilivedemo/VoiceNotificationService.kt:132-147 | nothing is found exactly when no schedule is in the window; otherwise the one found is at the first in-window position |
| VoiceReminders.VoiceNotificationService.constructor | backend/GeminiLiveDemo/app/src/main/java/com/example/geminilivedemo/GlobalPlaybackState.kt:7-10 | a new service plays nothing, holds no audio focus and has spoken nothing |
| VoiceReminders.VoiceNotificationService.Speak | backend/GeminiLiveDemo/app/src/main/java/com/example/geminilivedemo/VoiceNotificationService.kt:154-167 | an utterance is spoken exactly when nothing was playing; afterwards the playing flag is raised and focus is taken if spoken |
| VoiceReminders.VoiceNotificationService.SendImmediateVoiceNotification | backend/GeminiLiveDemo/app/src/main/java/com/example/geminilivedemo/VoiceNotificationService.kt:153-175 | while something plays nothing is spoken and neither the schedule list nor the stored per-elderly map changes; otherwise the "it is time" reminder is spoken, audio focus is taken, and the schedule is marked completed both in the list and in the stored map |
| VoiceReminders.VoiceNotificationService.SendAdvanceVoiceNotification | backend/GeminiLiveDemo/app/src/main/java/com/example/geminilivedemo/VoiceNotificationService.kt:177-195 | the "in N minutes" reminder, N the whole minutes left, is spoken (and focus taken) only when nothing plays; the schedule stays open |
| VoiceReminders.VoiceNotificationService.SendCustomVoiceNotification | backend/GeminiLiveDemo/app/src/main/java/com/example/geminilivedemo/VoiceNotificationService.kt:198-216 | "title. message" is spoken (and focus taken) only when nothing plays |
| VoiceReminders.VoiceNotificationService.RemindIfDue | backend/GeminiLiveDemo/app/src/main/java/com/example/geminilivedemo/VoiceNotificationService.kt:134-145 | a schedule in the window gets the reminder its distance calls for, unless something plays; one outside the window gets none; the flag ends raised and focus taken exactly when a reminder was due, and the schedule is completed in the list and the stored map exactly when the immediate reminder was spoken |
| VoiceReminders.VoiceNotificationService.CheckUpcomingSchedules | backend/GeminiLiveDemo/app/src/main/java/com/example/geminilivedemo/VoiceNotificationService.kt:122-151 | a pass speaks at most one reminder, for the first fetched schedule in the window, and none while audio is already playing, because the first send raises the flag and nothing in the pass lowers it; focus is taken exactly when that reminder is spoken, and only that schedule is completed, in the list and the stored map, and only when its reminder was the immediate one |
| VoiceReminders.VoiceNotificationService.OnStart | backend/GeminiLiveDemo/app/src/main/java/com/example/geminilivedemo/VoiceNotificationService.kt:77-80 | the speech engine's start raises the playing flag |
| VoiceReminders.VoiceNotificationService.OnDoneOrError | backend/GeminiLiveDemo/app/src/main/java/com/example/geminilivedemo/VoiceNotificationService.kt:82-98 | the speech engine's done and error callbacks lower the flag and give up audio focus |
| VoiceReminders.FirstInWindowAppend | backend/GeminiLiveDemo/app/src/main/java/com/example/geminilivedemo/VoiceNotificationService.kt:132-147 | one more schedule at the end is found only when none before it is in the window |
| NotificationForm.LastIndexOf | frontend/GeminiLiveDemo/app/src/main/java/com/example/geminilivedemo/FamilyNotificationActivity.kt:178 | the position of the last occurrence, with none after it, or -1 |
| NotificationForm.IndexOf | frontend/GeminiLiveDemo/app/src/main/java/com/example/geminilivedemo/FamilyNotificationActivity.kt:178 | the position of the first occurrence, with none before it, or -1 |
| NotificationForm.SubstringAfterLast | frontend/GeminiLiveDemo/app/src/main/java/com/example/geminilivedemo/FamilyNotificationActivity.kt:178 | the text after the last delimiter holds no delimiter |
| NotificationForm.SubstringBefore | frontend/GeminiLiveDemo/app/src/main/java/com/example/geminilivedemo/FamilyNotificationActivity.kt:178 | the text before the first delimiter is a prefix of the input without the delimiter |
| NotificationForm.ExtractValueFromSpinner | frontend/GeminiLiveDemo/app/src/main/java/com/example/geminilivedemo/FamilyNotificationActivity.kt:177-180 | the value read from a drop-down entry holds no parenthesis |
| NotificationForm.ExtractDisplay | frontend/GeminiLiveDemo/app/src/main/java/com/example/geminilivedemo/FamilyNotificationActivity.kt:108-109 | reading back a shown entry "label (value)" gives the value whatever the label, as long as the value holds no parentheses |
| NotificationForm.ExtractWithoutParentheses | frontend/GeminiLiveDemo/app/src/main/java/com/example/geminilivedemo/FamilyNotificationActivity.kt:177-180 | text without parentheses is read back as itself |
| NotificationForm.OfferedEntriesRoundTrip | frontend/GeminiLiveDemo/app/src/main/java/com/example/geminilivedemo/FamilyNotificationActivity.kt:95-125 | every offered type and priority entry reads back as its own value |
| NotificationForm.DefaultTypeShown | frontend/GeminiLiveDemo/app/src/main/java/com/example/geminilivedemo/FamilyNotificationActivity.kt:112 | the initial type text is the shown form of the first type |
| NotificationForm.DefaultPriorityShown | frontend/GeminiLiveDemo/app/src/main/java/com/example/geminilivedemo/FamilyNotificationActivity.kt:128 | the initial priority text is the shown form of the second priority |
| NotificationForm.DefaultSelections | frontend/GeminiLiveDemo/app/src/main/java/com/example/geminilivedemo/FamilyNotificationActivity.kt:112-128 | the initial selections read back as medicine and normal |
| NotificationForm.TypeChipLabelsDistinct | frontend/GeminiLiveDemo/app/src/main/java/com/example/geminilivedemo/FamilyNotificationActivity.kt:182-194 | distinct offered types get distinct chip labels |
| NotificationForm.UnknownTypeShownAsIs | frontend/GeminiLiveDemo/app/src/main/java/com/example/geminilivedemo/FamilyNotificationActivity.kt:192 | a type that is not offered is shown as is |
| NotificationForm.PriorityChipLabels | frontend/GeminiLiveDemo/app/src/main/java/com/example/geminilivedemo/FamilyNotificationActivity.kt:196-204 | distinct priorities get distinct chip labels, equal to the drop-down labels, and an unknown priority is shown as is |
| NotificationForm.ValidateSend | frontend/GeminiLiveDemo/app/src/main/java/com/example/geminilivedemo/FamilyNotificationActivity.kt:307-321 | no request without a selected elderly user, none for text that is blank after Kotlin's trim (Unicode white space), and otherwise a request with the trimmed text and the values read from the drop-downs |
| NotificationForm.NoBreakSpaceRefused | frontend/GeminiLiveDemo/app/src/main/java/com/example/geminilivedemo/FamilyNotificationActivity.kt:309-321 | text made only of no-break spaces is refused as empty, because Kotlin's trim removes Unicode white space |
| NotificationForm.FamilyNotificationActivity.constructor | frontend/GeminiLiveDemo/app/src/main/java/com/example/geminilivedemo/FamilyNotificationActivity.kt:44-46 | a new form has no elderly users, no selection and has posted nothing |
| NotificationForm.FamilyNotificationActivity.SetupElderlySpinner | frontend/GeminiLiveDemo/app/src/main/java/com/example/geminilivedemo/FamilyNotificationActivity.kt:274-292 | the loaded users fill the drop-down and the first becomes the selection; an empty list leaves the selection as it was |
| NotificationForm.FamilyNotificationActivity.SelectElderly | frontend/GeminiLiveDemo/app/src/main/java/com/example/geminilivedemo/FamilyNotificationActivity.kt:287-291 | picking an entry selects that user's id and name |
| NotificationForm.FamilyNotificationActivity.SendNotification | frontend/GeminiLiveDemo/app/src/main/java/com/example/geminilivedemo/FamilyNotificationActivity.kt:307-366 | a request is posted exactly when the validation lets it through, and it is the validated request |
| Common.StripEmptyIffBlank | backend/services/memoir_extraction_service.py:176 | under either language's whitespace rule, a string strips to nothing exactly when every character is white space |
| Common.TrimRulesDiffer | backend/services/memoir_extraction_service.py:162 | Python's strip removes every character Kotlin's trim removes, and also NEXT LINE (U+0085), which Kotlin keeps; both remove the no-break space |
| MemoirExtraction.Lines | backend/services/memoir_extraction_service.py:155-163 | one "role: text" line per message that is not blank under Python's whitespace rule (which counts U+0085 and the Unicode spaces), in order |
| MemoirExtraction.FormatConversation | backend/services/memoir_extraction_service.py:144-165 | no messages give the empty text |
| MemoirExtraction.JoinEmptyIff | backend/services/memoir_extraction_service.py:165 | joining non-empty lines gives the empty text exactly when there are none |
| MemoirExtraction.FormatConversationSpec | backend/services/memoir_extraction_service.py:144-165 | the formatted conversation is empty exactly when every message is blank under Python's whitespace rule, and a single non-blank message gives exactly its line |
| MemoirExtraction.AcceptStory | backend/services/memoir_extraction_service.py:127-138 | a reply is kept exactly when, stripped of Python's whitespace, it is non-empty and holds none of the four rejection phrases; the kept story is the stripped reply |
| MemoirExtraction.ExtractImportantInfoSpec | backend/services/memoir_extraction_service.py:104-142 | no story comes from a conversation under 50 characters once stripped of Python's whitespace; from a longer one a story comes exactly when the model's stripped reply is non-empty and not a rejection, and it is that reply |
| MemoirExtraction.Matches | backend/services/memoir_extraction_service.py:446-455 | the number of listed words that occur in the text |
| MemoirExtraction.MatchesWitness | backend/services/memoir_extraction_service.py:446-457 | a text matches at least one word exactly when one of the words occurs in it |
| MemoirExtraction.ImportantHasKeyword | backend/services/memoir_extraction_service.py:415-457 | every memoir pattern holds a keyword, so a message judged important always contains at least one keyword |
| MemoirExtraction.PatternsHoldKeywords | backend/services/memoir_extraction_service.py:424-444 | each memoir pattern contains the keyword indexed for it |
| MemoirExtraction.ShouldAutoExtractSpec | backend/services/memoir_extraction_service.py:310-338 | before any extraction, extraction is due exactly when there is a message; afterwards, exactly when enough new messages arrived or five minutes passed |
| MemoirExtraction.BackgroundOutcomeSpec | backend/services/memoir_extraction_service.py:200-252 | a pass saves only a story the model wrote, stripped of Python's whitespace and not a rejection, only for a formatted history of at least 100 characters and only when the append succeeds; an empty history yields nothing |
| MemoirExtraction.MemoirExtractionService.constructor | backend/services/memoir_extraction_service.py:70-87 | a new service has processed nothing, has a threshold of 3, has never extracted and runs no task |
| MemoirExtraction.MemoirExtractionService.UpdateAutoExtractionThreshold | backend/services/memoir_extraction_service.py:396-413 | a threshold below 1 is refused and changes nothing; otherwise it becomes the threshold |
| MemoirExtraction.MemoirExtractionService.StartBackgroundExtraction | backend/services/memoir_extraction_service.py:254-262 | a task starts exactly when none is running, and one runs afterwards |
| MemoirExtraction.MemoirExtractionService.UpdateConversationAndExtract | backend/services/memoir_extraction_service.py:340-380 | the message is appended; extraction is triggered exactly when it is due, and then the background extraction runs and every message so far counts as processed |
| MemoirExtraction.MemoirExtractionService.ProcessConversationHistoryBackground | backend/services/memoir_extraction_service.py:200-252 | the outcome is the pass's; a saved story is appended to the memoir file, and the extraction time is recorded when a story is saved or none is found, but not when the append fails |
| DailyMemoir.AsMessage | backend/services/daily_memoir_extraction_service.py:106-111 | a stored message keeps its content, and counts as the user's exactly when its role is missing or user |
| DailyMemoir.AsMessages | backend/services/daily_memoir_extraction_service.py:98-111 | every stored message of the day becomes one message, in order |
| DailyMemoir.MessagesOfEmpty | backend/services/daily_memoir_extraction_service.py:98-113 | a day yields messages exactly when one of its conversations holds a message |
| DailyMemoir.FormatDailyConversations | backend/services/daily_memoir_extraction_service.py:119-133 | the daily text follows the same rule as the live formatter |
| DailyMemoir.RolelessIsUser | backend/services/daily_memoir_extraction_service.py:107 | a stored message without a role is shown as the user's line |
| DailyMemoir.ExtractDailyMemoirSpec | backend/services/daily_memoir_extraction_service.py:135-166 | no memoir comes from under 100 characters once stripped of Python's whitespace; otherwise one comes exactly when the model's reply is accepted, and it is the non-empty stripped reply |
| DailyMemoir.StageOfSpec | backend/services/daily_memoir_extraction_service.py:220-232 | the current year is the present, up to five years back and every future year recent, up to twenty back middle age, anything older youth |
| DailyMemoir.StageOfMonotone | backend/services/daily_memoir_extraction_service.py:220-232 | up to the current year an earlier year never falls in a later stage |
| DailyMemoir.TimePeriodFromYear | backend/services/daily_memoir_extraction_service.py:220-232 | the label starts with "Năm <year> (" |
| DailyMemoir.DefaultDate | backend/services/daily_memoir_extraction_service.py:236-237 | the day processed is the given one, else the day before today |
| DailyMemoir.OnePerDayAppend | backend/services/daily_memoir_extraction_service.py:172-176 | adding a memoir for a user and day without one keeps at most one memoir per user and day |
| DailyMemoir.UserOutcomeSpec | backend/services/daily_memoir_extraction_service.py:234-295 | no messages is success without a memoir; a saved memoir is never empty so it counts as a success; a failure is only ever a memoir the store did not take |
| DailyMemoir.CountsPartition | backend/services/daily_memoir_extraction_service.py:336-348 | successes, failures and users without content split every list of results |
| DailyMemoir.UsersOn | backend/services/daily_memoir_extraction_service.py:306-317 | the users listed are exactly those with a conversation started on the day, each listed once |
| DailyMemoir.DayStory | backend/services/daily_memoir_extraction_service.py:243-262 | a day yields a story only when it has messages, the story is never empty, and it yields one exactly when the outcome would be a saved memoir |
| DailyMemoir.AfterSave | backend/services/daily_memoir_extraction_service.py:168-201 | saving only ever adds one row; afterwards a user has a memoir on the day exactly when it had one or it is the user saved, with a story, and the insert succeeded; one memoir per user and day is kept |
| DailyMemoir.StoreAfterUsersSpec | backend/services/daily_memoir_extraction_service.py:332-334 | after the pass a user has a memoir on the day exactly when it had one or it was processed, its day yields a story and its insert succeeded; rows are only added, at most one per user, and one memoir per user and day is kept |
| DailyMemoir.UntouchedBeforeVisit | backend/services/daily_memoir_extraction_service.py:332-334 | the users processed before a user, each listed once, never change whether that user has a memoir on the day |
| DailyMemoir.StoreAfterUsersStep | backend/services/daily_memoir_extraction_service.py:332-334 | processing one more user is one more save on top of the table so far |
| DailyMemoir.TallyStep | backend/services/daily_memoir_extraction_service.py:336-339 | one more result adds one to exactly the count it belongs to |
| DailyMemoir.DailyMemoirService.constructor | backend/services/daily_memoir_extraction_service.py:73-80 | the service works over the given memoir store and conversations |
| DailyMemoir.DailyMemoirService.SaveDailyMemoirToDatabase | backend/services/daily_memoir_extraction_service.py:168-201 | a day that already has a memoir is left alone and reported saved; otherwise the daily record is created and the result is whether the store took it; one memoir per user and day is kept |
| DailyMemoir.DailyMemoirService.ProcessDailyMemoirForUser | backend/services/daily_memoir_extraction_service.py:234-295 | the day is the default day, the outcome is the rule applied to the user's messages that day, the new table is the old one after saving the day's story, and one memoir per user and day is kept |
| DailyMemoir.DailyMemoirService.ProcessUsers | backend/services/daily_memoir_extraction_service.py:328-339 | for users listed once each, the i-th result is the i-th user's outcome judged against the table as it was before the loop, the counts are exact, and the table is the one all their saves give |
| DailyMemoir.DailyMemoirService.ProcessDailyMemoirForAllUsers | backend/services/daily_memoir_extraction_service.py:297-358 | no users gives the no-users summary; otherwise every user who talked that day is processed once and the i-th result is that user's outcome against the table before the pass; successes, failures and users without content are counted exactly; the new table is the one those saves give |
| MemoirStore.Chronological | backend/db/db_services/memoir_service.py:367 | the rows are exactly the given ones, dated rows in date order and every undated row after them |
| MemoirStore.OrderColumnFor | backend/db/db_services/memoir_service.py:89-94 | "date_of_memory" and "importance" select their columns, and every other value selects the extraction time |
| MemoirStore.OrderedByMembers | backend/db/db_services/memoir_service.py:86-96 | an ordering holds only the rows it was given |
| MemoirStore.GetUserMemoirsOwn | backend/db/db_services/memoir_service.py:76-101 | a page holds at most limit memoirs, all of them the user's own rows |
| MemoirStore.GetUserMemoirsLatestFirst | backend/db/db_services/memoir_service.py:93-94 | with the default order a page comes newest extraction first |
| MemoirStore.GetUserMemoirsImportanceFirst | backend/db/db_services/memoir_service.py:91-92 | ordered by importance, a page comes most important first |
| MemoirStore.PeriodsSpec | backend/db/db_services/memoir_service.py:370-373 | the timeline's periods are distinct and are exactly the periods of the memoirs, a missing or empty period counting as "Unknown Period" |
| MemoirStore.Timeline | backend/db/db_services/memoir_service.py:384-391 | the timeline has one group per period |
| MemoirStore.TimelineTotal | backend/db/db_services/memoir_service.py:384-391 | the story counts of the timeline add up to the number of memoirs |
| MemoirStore.TimelineCovers | backend/db/db_services/memoir_service.py:370-382 | every memoir is a story of the group of its period |
| MemoirStore.TimelineSound | backend/db/db_services/memoir_service.py:370-391 | every story of a group is a memoir of that group's period and no two groups share a period, so each memoir is in exactly one group |
| MemoirStore.TimelineCounts | backend/db/db_services/memoir_service.py:388 | every group's story count is the number of its stories |
| MemoirStore.GroupStep | backend/db/db_services/memoir_service.py:370-382 | one step of the grouping loop keeps every period's list equal to that period's memoirs so far, and the period order equal to first occurrence |
| MemoirStore.GroupByPeriod | backend/db/db_services/memoir_service.py:369-382 | after the first loop each period's list holds exactly its memoirs in order, and periods are listed in order of first occurrence |
| MemoirStore.GroupsInOrder | backend/db/db_services/memoir_service.py:384-391 | the second loop yields exactly the timeline of the memoirs |
| MemoirStore.ApplyUpdate | backend/db/db_services/memoir_service.py:268-270 | an update never touches the id, owner, date of memory or extraction time |
| MemoirStore.ApplyUpdateSpec | backend/db/db_services/memoir_service.py:257-270 | an update without values changes nothing, applying an update twice is applying it once, each of the eight columns takes its given value or keeps the old one, and the conversation link is kept |
| MemoirStore.NewMemoir | backend/db/db_services/memoir_service.py:39-51 | a new row has the given owner, conversation and date, empty categories, people and places where none are given and the given ones otherwise, and is extracted now |
| MemoirStore.IndexOfMemoir | backend/db/db_services/memoir_service.py:249-254 | the position of the first row with the id, and -1 exactly when none has it |
| MemoirStore.AddToTally | backend/db/db_services/memoir_service.py:455-458 | adding one memoir's categories keeps every count equal to the number of occurrences so far |
| MemoirStore.CategoryTallyStep | backend/db/db_services/memoir_service.py:457-458 | counting one more category keeps the tally right |
| MemoirStore.ExportLines | backend/db/db_services/memoir_service.py:415-426 | each memoir contributes at least five lines, its content the second to last |
| MemoirStore.ExportHoldsContents | backend/db/db_services/memoir_service.py:413-428 | every memoir's content appears in the export |
| MemoirStore.MemoirDBService.constructor | backend/db/db_services/memoir_service.py:19-20 | a new store holds no memoirs |
| MemoirStore.MemoirDBService.CreateMemoir | backend/db/db_services/memoir_service.py:22-62 | the new row, with its conversation, people and places, is appended and returned; when the insert fails nothing is added and nothing is returned |
| MemoirStore.MemoirDBService.GetDistinctTags | backend/db/db_services/memoir_service.py:301-319 | the values of the column over the user's memoirs, each once, in strictly increasing code-point order, and no others |
| MemoirStore.MemoirDBService.GetMemoirTimeline | backend/db/db_services/memoir_service.py:361-397 | the user's memoirs in date order, grouped by period in order of first appearance |
| MemoirStore.MemoirDBService.UpdateMemoir | backend/db/db_services/memoir_service.py:235-278 | true exactly when a row has the id; then that row takes the update and no other changes; false leaves the table unchanged |
| MemoirStore.MemoirDBService.GetMemoirStats | backend/db/db_services/memoir_service.py:436-471 | corrected: the number of the user's memoirs, how often each category occurs across them, and the number of distinct categories |
| MemoirStore.MemoirStatsAsWritten | backend/db/db_services/memoir_service.py:460-482 | as written every call ends in the error branch, so the counts are zero and the distribution empty |
| MemoirStore.StatsAsWrittenMissMemoirs | backend/db/db_services/memoir_service.py:460-482 | as written a user with memoirs is reported to have none |
| MemoirStore.MemoirDBService.ExportMemoirsForFamily | backend/db/db_services/memoir_service.py:399-434 | an export is produced exactly for the text format |
| Health.FirstWhere | backend/db/db_services/health_service.py:180-209 | a record found is among the given ones and satisfies the test |
| Health.FirstWhereSpec | backend/db/db_services/health_service.py:180-209 | nothing is found exactly when no record qualifies, and otherwise the first qualifying one |
| Health.LatestFromAppend | backend/db/db_services/health_service.py:180-209 | one more, older record only fills the vitals still missing |
| Health.LatestFromSpec | backend/db/db_services/health_service.py:174-211 | each of the five vitals (blood pressure, heart rate, temperature, weight, blood sugar) is reported exactly when one of the ten newest records has it, and then with the values and recording time of the first such record in newest-first order |
| Health.SeveritySpec | backend/db/db_services/health_service.py:225-311 | the thresholds of each vital, both ways: blood pressure urgent at 180/110 and high at 140/90, heart rate outside 60..100, temperature at 37.5 and 38.5, blood sugar outside 70..250 |
| Health.MissingDiastolicBySystolic | backend/db/db_services/health_service.py:230-245 | in the corrected check a missing diastolic leaves the blood-pressure severity to the systolic value alone |
| Health.AlertFor | backend/db/db_services/health_service.py:229-245 | at most one alert, present exactly when a severity was judged, of the vital's kind and that severity, carrying the given value and recording time |
| Health.CheckAlertsCarryValues | backend/db/db_services/health_service.py:225-311 | every alert carries the value and recording time of the reported vital it is about |
| Health.CheckAlerts | backend/db/db_services/health_service.py:218-317 | there are at most four alerts for the latest vitals |
| Health.CheckAlertsDistinct | backend/db/db_services/health_service.py:225-311 | the alerts come in the order blood pressure, heart rate, temperature, blood sugar, at most one per vital |
| Health.CheckAlertsPressureAndPulse | backend/db/db_services/health_service.py:225-267 | blood pressure and heart rate have an alert exactly when they are reported with a severity that calls for one |
| Health.CheckAlertsTemperatureAndSugar | backend/db/db_services/health_service.py:270-311 | temperature and blood sugar have an alert exactly when reported with a severity that calls for one, and weight never raises an alert |
| Health.AlertsOrdered | backend/db/db_services/health_service.py:225-311 | the alerts' vitals come in strictly increasing order |
| Health.CheckAlertsAsWritten | backend/db/db_services/health_service.py:218-317 | the alert check as written agrees with the corrected one whenever no comparison with a missing diastolic is reached |
| Health.MissingDiastolicLosesAlerts | backend/db/db_services/health_service.py:230-238 | a newest blood pressure of 150 with no diastolic next to a heart rate of 130: the alert check as written reports nothing, the corrected check reports both |
| Health.HistoryLength | backend/db/db_services/health_service.py:140-160 | the history holds one point per record carrying the vital type |
| Health.HistoryKinds | backend/db/db_services/health_service.py:140-160 | a vital type the service does not know has no history, and the points of a blood-pressure or weight history are all of that type |
| Health.DirectionShift | backend/db/db_services/health_service.py:340-374 | the trend direction is unchanged when every value is shifted by the same amount |
| Health.HealthTrendSpec | backend/db/db_services/health_service.py:319-390 | no data for an empty history, too little for fewer than three points; the trend is analysed exactly for a blood-pressure or weight history with at least three values, and then its data points are the number of values, its recent average is the mean of the last three, its older average the mean of the first three, and the direction compares the two (blood pressure with a tolerance of 10, weight of 2; no other vital is analysed) with the matching message |
| Health.SystolicValuesOfPressureHistory | backend/db/db_services/health_service.py:340-345 | every blood-pressure point gives a systolic value |
| Health.WeightValuesOfWeightHistory | backend/db/db_services/health_service.py:358-362 | every weight point gives a weight value |
| Health.AnalysableHistoryAnalysed | backend/db/db_services/health_service.py:337-366 | a blood-pressure or weight history of at least three records is always analysed, over all of its points |
| Health.ScanLatest | backend/db/db_services/health_service.py:180-209 | the loop over the recent records yields exactly the latest vitals |
| Health.TakeMissing | backend/db/db_services/health_service.py:181-209 | the loop body takes from the record each vital it has that is still missing |
| Health.HealthService.constructor | backend/db/db_services/health_service.py:19-20 | the service works over the given health records |
| Health.HealthService.GetLatestVitalSigns | backend/db/db_services/health_service.py:169-216 | over the user's ten newest records, newest first, each vital comes from the first record that has it |
| Health.HealthService.CheckVitalSignsAlerts | backend/db/db_services/health_service.py:218-317 | the corrected alerts for the user's latest vitals, at most four |
| Health.HealthService.GetVitalSignsHistory | backend/db/db_services/health_service.py:121-167 | the user's records of the last daysBack days, oldest first, that carry the vital |
| Health.HealthService.GetHealthTrends | backend/db/db_services/health_service.py:319-390 | the trend of the vital's history over the window |
| Medicines.UserMedicines | backend/db/db_services/medicine_service.py:86-119 | a page holds at most limit records |
| Medicines.UserMedicinesSound | backend/db/db_services/medicine_service.py:98-113 | every listed record is the user's and, when only active ones are asked for, active today; the page is newest created first |
| Medicines.UserMedicinesComplete | backend/db/db_services/medicine_service.py:98-113 | when all the user's matching records fit on the first page, each of them is on it |
| Medicines.AdherenceOf | backend/db/db_services/medicine_service.py:311-317 | the total is the number of logs in the window |
| Medicines.AdherenceBounds | backend/db/db_services/medicine_service.py:311-317 | no log is counted under two statuses; the rate is 0 without logs, always a percentage, and 100 exactly when every scheduled dose was taken |
| Medicines.MedicationAdherence | backend/db/db_services/medicine_service.py:288-329 | the total counts exactly the user's logs, of the medicine if one is given, scheduled within the last daysBack days |
| Medicines.CheckInteractionSymmetric | backend/db/db_services/medicine_service.py:474-491 | both the interaction test as written and the corrected one are symmetric in the two medicines |
| Medicines.LongNameMissedAsWritten | backend/db/db_services/medicine_service.py:487-489 | as written, a name longer than every drug in the table is never flagged |
| Medicines.FragmentsFlaggedAsWritten | backend/db/db_services/medicine_service.py:487-489 | as written, the one-letter names "a" and "i" are flagged against each other |
| Medicines.FullNameMissedAsWritten | backend/db/db_services/medicine_service.py:487-489 | as written, "Warfarin Sodium" is not flagged against "Aspirin" |
| Medicines.WarfarinAspirinFlagged | backend/db/db_services/medicine_service.py:478-481 | corrected: names that begin with "warfarin" and "aspirin" are flagged |
| Medicines.ShortNameNotFlagged | backend/db/db_services/medicine_service.py:478-481 | corrected: a name shorter than every drug in the table is never flagged |
| Medicines.FullNameFlagged | backend/db/db_services/medicine_service.py:478-489 | corrected: "Warfarin Sodium" is flagged against "Aspirin" |
| Medicines.FragmentsFlaggedOnlyAsWritten | backend/db/db_services/medicine_service.py:487-489 | the fragments "a" and "i" are flagged as written and not once corrected |
| Medicines.InteractionsWith | backend/db/db_services/medicine_service.py:455-463 | one name against the later names yields at most one interaction per later name |
| Medicines.InteractionsWithSpec | backend/db/db_services/medicine_service.py:455-463 | the interactions of one name are exactly its interacting pairs with the later names, in their order |
| Medicines.InteractionsAmongSound | backend/db/db_services/medicine_service.py:455-463 | every reported interaction pairs a name with a strictly later one, and the pair interacts |
| Medicines.InteractionsAmongComplete | backend/db/db_services/medicine_service.py:455-463 | every interacting pair of positions i < j is reported |
| Medicines.InteractionCandidates | backend/db/db_services/medicine_service.py:449-453 | the names checked are the active medicines' names in listing order, then the new medicine when one is named |
| Medicines.NextDoseTimeSpec | backend/db/db_services/medicine_service.py:359-362 | the next dose is at 08:00, strictly after now and at most a day later, and no 08:00 after now comes earlier |
| Medicines.UpcomingFrom | backend/db/db_services/medicine_service.py:357-370 | at most one dose per medicine |
| Medicines.UpcomingFromSpec | backend/db/db_services/medicine_service.py:357-370 | every upcoming dose is at the next 08:00 and comes from a daily medicine; there is one per daily medicine when that 08:00 falls within the window and none otherwise |
| Medicines.UpcomingSortKeepsOrder | backend/db/db_services/medicine_service.py:372 | all upcoming doses share one time, so sorting them by time keeps their order |
| Medicines.ApplyField | backend/db/db_services/medicine_service.py:161-163 | a None value or unknown key leaves the record as it was; any column may be set, and the id and the creation and update times change only when the argument names them |
| Medicines.ApplyFields | backend/db/db_services/medicine_service.py:161-163 | applying the arguments in order keeps the id and the creation and update times when no argument names them |
| Medicines.IgnoredFieldsChangeNothing | backend/db/db_services/medicine_service.py:161-163 | arguments that are all None or unknown leave the record unchanged |
| Medicines.DeactivationSpec | backend/db/db_services/medicine_service.py:175-181 | a deactivated record is inactive, ends today, is active on no day, and is otherwise unchanged |
| Medicines.IndexOfMedicine | backend/db/db_services/medicine_service.py:155-157 | the first position of the record with the id, with none before it, or -1 when there is none |
| Medicines.NewMedicine | backend/db/db_services/medicine_service.py:41-72 | a new record is active over the given dates, with empty lists where none are given, the prescription columns as given, and created and updated now |
| Medicines.FromScan | backend/db/db_services/medicine_service.py:402-437 | a scanned medicine is the user's, active from the scan day with no end date, has no prescription details, and keeps the image path and confidence |
| Medicines.FromScanSpec | backend/db/db_services/medicine_service.py:402-437 | a scanned medicine keeps the fields the scan has, takes "Unknown Medicine", "As prescribed" and "As directed" for the missing ones, and is active from the day of the scan |
| Medicines.UpcomingDoses | backend/db/db_services/medicine_service.py:357-372 | the loop over the active medicines and the sort yield exactly the upcoming doses |
| Medicines.LaterInteractions | backend/db/db_services/medicine_service.py:458-466 | the inner loop yields exactly the interactions of one name with every later name, in order |
| Medicines.PairInteractions | backend/db/db_services/medicine_service.py:455-463 | the nested loops yield exactly the interactions among the names, each name against every later one |
| Medicines.MedicineService.constructor | backend/db/db_services/medicine_service.py:19-20 | the service works over the given medicine records and logs |
| Medicines.MedicineService.CreateMedicineRecord | backend/db/db_services/medicine_service.py:22-72 | the new record is appended, and returned, exactly when the write succeeds; logs are untouched |
| Medicines.MedicineService.GetUserMedicines | backend/db/db_services/medicine_service.py:86-119 | the listing, whose records are all the user's and, when asked, active today |
| Medicines.MedicineService.UpdateMedicineRecord | backend/db/db_services/medicine_service.py:146-173 | false with nothing changed when no record has the id; otherwise the first such record takes the arguments in order and its update time is set |
| Medicines.MedicineService.DeactivateMedicine | backend/db/db_services/medicine_service.py:175-181 | the record becomes inactive on every day and ends today; an unknown id changes nothing |
| Medicines.MedicineService.LogMedicationTaken | backend/db/db_services/medicine_service.py:183-217 | an intake entry is appended, and returned, exactly when the write succeeds |
| Medicines.MedicineService.GetMedicationAdherence | backend/db/db_services/medicine_service.py:288-337 | the adherence statistics over the window, whose status counts never exceed the total and whose rate is a percentage |
| Medicines.MedicineService.GetUpcomingMedications | backend/db/db_services/medicine_service.py:339-376 | a dose at the next 08:00 for each active daily medicine when that falls within hoursAhead hours |
| Medicines.MedicineService.CreateMedicineFromScan | backend/db/db_services/medicine_service.py:402-437 | the scanned medicine is appended, and returned, exactly when the write succeeds |
| Medicines.MedicineService.GetMedicineInteractions | backend/db/db_services/medicine_service.py:439-472 | (corrected) every pair of positions i < j among the candidate names that interact under the corrected test (a listed drug name inside the medicine name), in loop order |
| Sessions.LoadHandle | backend/backend_aws/services/session_service.py:22-53 | a handle is returned only from a readable file that holds it, and it is never empty |
| Sessions.LoadHandleSpec | backend/backend_aws/services/session_service.py:28-53 | a handle loads exactly when the file holds it with a parseable time less than the timeout old; a missing or unreadable file, an absent or empty handle or time, or an expired time give None |
| Sessions.SaveLoadRoundTrip | backend/backend_aws/services/session_service.py:55-70 | a non-empty handle saved and loaded before the timeout comes back unchanged, and at or after the timeout gives None |
| Sessions.EmptyHandleNeverLoads | backend/backend_aws/services/session_service.py:34 | an empty handle is saved but never loaded |
| Sessions.ClearedLoadsNothing | backend/backend_aws/services/session_service.py:72-79 | a cleared file loads nothing |
| Sessions.SessionService.constructor | backend/backend_aws/services/session_service.py:13-20 | the service starts from the given file with the 60-second timeout of the settings |
| Sessions.SessionService.LoadPreviousSessionHandle | backend/backend_aws/services/session_service.py:22-53 | the handle the file yields at the given time |
| Sessions.SessionService.SavePreviousSessionHandle | backend/backend_aws/services/session_service.py:55-70 | the file is overwritten with the handle and the formatted time of saving |
| Sessions.SessionService.ClearSession | backend/backend_aws/services/session_service.py:72-79 | the file is overwritten with an empty object |
| Sessions.SaveClearScenario | backend/backend_aws/services/session_service.py:55-79 | whatever the file held, after two saves only the second handle loads within the timeout, and after clearing nothing loads |
| Conversations.RemovalKeepsTotals | backend/db/db_services/conversation_service.py:354-360 | removing a conversation and its messages keeps every other conversation's message total right and the ids unique |
| Conversations.NumberedRemove | backend/db/db_services/conversation_service.py:354-360 | the per-conversation numbering 1..n survives removing every message of one conversation |
| Conversations.NumberedAppend | backend/db/db_services/conversation_service.py:147-151 | appending a message numbered one past its conversation's count keeps the numbering |
| Conversations.LastOrder | backend/db/db_services/conversation_service.py:147-149 | the last message's order is the largest among the conversation's messages, and there is none exactly when the conversation has no message |
| Conversations.NextOrderCounts | backend/db/db_services/conversation_service.py:147-151 | in a numbered table the next order is the conversation's message count plus one |
| Conversations.IndexOfConversation | backend/db/db_services/conversation_service.py:139-144 | the position of a conversation with the id, or -1 exactly when none has it |
| Conversations.UserConversations | backend/db/db_services/conversation_service.py:68-95 | a page holds at most limit conversations |
| Conversations.UserConversationsSound | backend/db/db_services/conversation_service.py:78-85 | every listed conversation is the user's, and active unless inactive ones are asked for; latest started first |
| Conversations.UserConversationsComplete | backend/db/db_services/conversation_service.py:78-85 | when the user's listed conversations fit in the first page, every one of them (active unless inactive ones are asked for) is on it |
| Conversations.ActiveConversationSpec | backend/db/db_services/conversation_service.py:97-124 | the active conversation is an open one, never an ended one, started no earlier than any other open one; there is none exactly when none is open |
| Conversations.ConversationMessagesSound | backend/db/db_services/conversation_service.py:212-238 | returned messages belong to the conversation and come in ascending order |
| Conversations.ConversationMessagesNumbered | backend/db/db_services/conversation_service.py:221-226 | in a numbered table the unpaged messages are exactly the conversation's, in insertion order, numbered 1..n |
| Conversations.ConversationService.constructor | backend/db/db_services/conversation_service.py:21-22 | a new service holds no conversations and no messages |
| Conversations.ConversationService.CreateConversation | backend/db/db_services/conversation_service.py:24-48 | the new conversation is active, not ended, has no messages and is titled "Conversation <date and minute>" unless a title is given; nothing else changes |
| Conversations.ConversationService.AddMessage | backend/db/db_services/conversation_service.py:126-177 | None and no change for an unknown conversation; otherwise the message is appended with the next order and the conversation's total becomes that order, keeping the numbering |
| Conversations.ConversationService.EndConversation | backend/db/db_services/conversation_service.py:179-210 | false for an unknown conversation; otherwise it is ended now and made inactive, and the summary and topics are replaced only by non-empty ones |
| Conversations.ConversationService.DeleteConversation | backend/db/db_services/conversation_service.py:342-367 | false for an unknown conversation; otherwise it and all its messages are removed, and every other conversation keeps exactly its messages |
| Users.FirstIndex | backend/db/db_services/user_service.py:222-224 | the first position of the value, with none before it, or -1 exactly when it does not occur |
| Users.Occurrences | backend/db/db_services/user_service.py:305-358 | the count is at most the length, and 0 exactly when the value does not occur |
| Users.CreateRejectedIffTaken | backend/db/db_services/user_service.py:57-62 | the corrected duplicate check refuses a new account exactly when its given email or phone belongs to an existing user |
| Users.MissingContactMatchesAsWritten | backend/db/db_services/user_service.py:57-62 | as written, a sign-up that gives only one contact is refused whenever some existing user lacks the other contact, whatever that user's own contacts are |
| Users.PhoneOnlySignUpRejectedAsWritten | backend/db/db_services/user_service.py:57-62 | with one user registered by phone 0901 only, a sign-up by phone 0902 only is refused as written although neither contact is taken, and accepted by the corrected check |
| Users.ElderlyOwners | backend/db/db_services/user_service.py:81-83 | one owning user per elderly profile, in table order |
| Users.FamilyOwners | backend/db/db_services/user_service.py:84-86 | one owning user per family profile, in table order |
| Users.NewUserKeepsOneProfileEach | backend/db/db_services/user_service.py:81-86 | adding a user with a fresh id together with the one profile of its type keeps every user at exactly one profile |
| Users.ColumnOf | backend/db/db_services/user_service.py:479-481 | a key names a boolean column exactly when that column's name is the key |
| Users.WithFlag | backend/db/db_services/user_service.py:479-481 | setting one boolean column changes that column only and keeps the link itself |
| Users.Lookup | backend/db/db_services/user_service.py:339-340 | the value a dictionary built from the items holds for a key is the last one given, and there is none exactly when no item has the key |
| Users.SetFlagEffect | backend/db/db_services/user_service.py:479-481 | one setattr changes the column its key names, if any, and nothing else |
| Users.SetFlagsSpec | backend/db/db_services/user_service.py:479-481 | applying a permissions dictionary sets each boolean column to the last value given for it, keeps the others, and keeps the link's id, profiles, type and creation time |
| Users.NewRelationshipPermissions | backend/db/db_services/user_service.py:331-347 | a new relationship's boolean columns are the supplied values where given and the defaults (view health data and receive notifications on, manage medications and schedule appointments off) where not, and it links the two profiles |
| Users.Pairs | backend/db/db_services/user_service.py:325-330 | the linked profile pairs of the relationships, in order |
| Users.RelationshipForSound | backend/db/db_services/user_service.py:294-358 | a relationship is created only between an elderly user and a family member, links a profile of each, repeats no existing link, and carries only boolean-column keys |
| Users.RelationshipForComplete | backend/db/db_services/user_service.py:294-358 | an elderly user and a family member who both have a profile not yet linked always get a relationship for permissions naming boolean columns only |
| Users.RelationshipForKeepsPairsUnique | backend/db/db_services/user_service.py:324-332 | creating a relationship keeps every pair of linked profiles unique |
| Users.SecondRelationshipRejected | backend/db/db_services/user_service.py:324-332 | once two users' profiles are linked, asking for the link again is refused |
| Users.RelationshipIndex | backend/db/db_services/user_service.py:459-477 | the relationship changed is one linking a profile of each of the two users, or -1 when either has no profile or no relationship links them |
| Users.ApplyProfileUpdate | backend/db/db_services/user_service.py:238-240 | a None value or a key that is no column changes nothing; the id, owner and timestamps change only when the entry names them |
| Users.ApplyProfileUpdates | backend/db/db_services/user_service.py:238-240 | the id, owner and creation time are kept when no entry names them, and a new owner is one some entry set |
| Users.ElderlyUpdatesKeepOwner | backend/db/db_services/user_service.py:228-240 | the five named arguments never move the profile, so only an extra keyword can |
| Users.SkippedUpdatesChangeNothing | backend/db/db_services/user_service.py:238-240 | entries whose value is None, and keys that are no column, change nothing |
| Users.ApplyProfileUpdatesAppend | backend/db/db_services/user_service.py:238-240 | applying two batches of updates in turn is applying them joined |
| Users.NamedArgumentsSpec | backend/db/db_services/user_service.py:209-240 | each named argument given replaces its column and each left as None keeps the stored value, and the extra keywords are applied after them |
| Users.ApplyUpdates | backend/db/db_services/user_service.py:238-240 | the loop over the update dictionary yields exactly the updated profile |
| Users.AddElderlyKeepsConsistent | backend/db/db_services/user_service.py:65-86 | an elderly user with a fresh id, added with its elderly profile, keeps the tables consistent and owns exactly one profile |
| Users.AddFamilyMemberKeepsConsistent | backend/db/db_services/user_service.py:65-86 | a family member with a fresh id, added with its family profile, keeps the tables consistent and owns exactly one profile |
| Users.UpdateProfileKeepsConsistent | backend/db/db_services/user_service.py:238-242 | rewriting an elderly profile without moving it to another user keeps the tables consistent |
| Users.UpdateLinkKeepsConsistent | backend/db/db_services/user_service.py:479-481 | rewriting a relationship's boolean columns keeps the tables consistent |
| Users.UserService.constructor | backend/db/db_services/user_service.py:23-24 | a new service holds no users, profiles or relationships |
| Users.UserService.CreateUser | backend/db/db_services/user_service.py:27-117 | (corrected) None and nothing inserted exactly when a given email or phone belongs to an existing user; otherwise the user is appended with exactly one profile of its type, and relationships are untouched |
| Users.UserService.CreateFamilyRelationship | backend/db/db_services/user_service.py:294-365 | true, with the new relationship appended, exactly when the first user is elderly and the second a family member, both have a profile, their profiles are not linked yet and the permissions name boolean columns only; false inserts nothing |
| Users.UserService.UpdateRelationshipPermissions | backend/db/db_services/user_service.py:450-492 | false when either user has no profile or no relationship links them; otherwise each item is set on the relationship in turn, keys that are no column skipped, and nothing else changes |
| Users.UserService.UpdateElderlyProfile | backend/db/db_services/user_service.py:209-249 | false when the user has no elderly profile; otherwise the updates are applied to the first one in turn, None values and unknown keys skipped, its update time is set, and nothing else changes; the user and profile tables stay consistent (no extra keyword can name `user_id`) |
| Users.LinkScenario | backend/db/db_services/user_service.py:294-358 | registering an elderly user and a family member and linking them creates one link with the default permissions, and asking for it again is refused |
| Notifications.IndexOfNotification | backend/db/db_services/notification_service.py:136-141 | the first position of the row with the id, with none before it, or -1 when there is none |
| Notifications.PendingSpec | backend/db/db_services/notification_service.py:103-126 | the pending list holds exactly the unsent notifications due by the cutoff (of the user, when one is given), each as often as in the table, earliest first |
| Notifications.MarkedSentSpec | backend/db/db_services/notification_service.py:140-149 | a notification marked sent is sent at now, pending for no user and no cutoff, and keeps every other column, the voice columns changing only when a voice file is given |
| Notifications.ReadAll | backend/db/db_services/notification_service.py:184-189 | the bulk update keeps the number of rows |
| Notifications.ReadAllSpec | backend/db/db_services/notification_service.py:180-197 | afterwards every notification of the user is read, the rows that change are exactly the user's unread ones and they change only in being read, and repeating it changes nothing |
| Notifications.ApplyNotificationUpdate | backend/db/db_services/notification_service.py:423-425 | a None value or a key that is no column changes nothing; a keyword for any other column, the type included, sets it; the id, owner and creation time change only when the keyword names them |
| Notifications.ApplyNotificationUpdates | backend/db/db_services/notification_service.py:423-425 | the id, owner and creation time are kept when no keyword names them, and a changed id is one that some keyword set |
| Notifications.TypeUpdateChangesOnlyType | backend/api_services/schedule_service.py:226-229 | the type keyword sent when a schedule is edited changes the notification's type and nothing else |
| Notifications.NoneNeverClears | backend/db/db_services/notification_service.py:423-425 | a keyword whose value is None is skipped wherever it stands, so it can never clear a column |
| Notifications.ApplyUpdates | backend/db/db_services/notification_service.py:423-425 | the loop over the keywords yields exactly the updated row |
| Notifications.RescheduleKeepsSentAtAsWritten | backend/db/db_services/notification_service.py:442-447 | as written, rescheduling a notification makes it unsent at the new time but keeps its old send time, so a sent one ends up unsent with a send time |
| Notifications.SentNotificationRescheduledAsWritten | backend/db/db_services/notification_service.py:442-447 | a notification sent at time 5 and rescheduled to 100 is, as written, unsent with send time 5 |
| Notifications.RescheduledIsPending | backend/db/db_services/notification_service.py:435-450 | a rescheduled notification carries no send time, and is pending exactly at the cutoffs from its new time on, for its user |
| Notifications.SendThenRescheduleUndoesSend | backend/db/db_services/notification_service.py:435-450 | sending and then rescheduling leaves no trace of the send |
| Notifications.CleanupSpec | backend/db/db_services/notification_service.py:515-545 | the cleanup keeps every row it does not delete and returns the number deleted; with keepUnread no unread row is deleted, and other users' rows and rows created at or after the cutoff are never deleted |
| Notifications.EmergencyNotificationSpec | backend/db/db_services/notification_service.py:282-308 | an emergency notification is urgent, has voice, begins with the given text, ends with the contact line exactly when a contact is given, and is pending at once for its user |
| Notifications.NotificationService.constructor | backend/db/db_services/notification_service.py:19-20 | the service works over the given notifications |
| Notifications.NotificationService.CreateNotification | backend/db/db_services/notification_service.py:22-60 | the new row is appended, and returned, exactly when the write succeeds; it starts unsent and unread |
| Notifications.NotificationService.GetPendingNotifications | backend/db/db_services/notification_service.py:103-126 | exactly the pending notifications, earliest first |
| Notifications.NotificationService.MarkNotificationSent | backend/db/db_services/notification_service.py:128-157 | false with nothing changed for an unknown id; otherwise the first row with it is marked sent |
| Notifications.NotificationService.MarkNotificationRead | backend/db/db_services/notification_service.py:159-178 | false with nothing changed for an unknown id; otherwise the first row with it is read and nothing else changes |
| Notifications.NotificationService.MarkAllRead | backend/db/db_services/notification_service.py:180-197 | every row of the user becomes read |
| Notifications.NotificationService.UpdateNotification | backend/db/db_services/notification_service.py:408-433 | false with nothing changed for an unknown id; otherwise the keywords are applied in turn to the first row with it, skipping None values and unknown keys; any column can be set, the notification type included |
| Notifications.NotificationService.RescheduleNotification | backend/db/db_services/notification_service.py:435-450 | (corrected) false with nothing changed for an unknown id; otherwise the first row with it gets the new time, is unsent and has no send time |
| Notifications.NotificationService.CleanupOldNotifications | backend/db/db_services/notification_service.py:515-545 | the user's rows created before now minus daysOld days (only read ones with keepUnread) are deleted, and the count returned is the number deleted |
| Notifications.NotificationService.CreateEmergencyNotification | backend/db/db_services/notification_service.py:282-308 | the emergency notification is appended, and returned, exactly when the write succeeds |

## Left out

- Pixel codecs and platform image calls: `BitmapFactory` decoding, JPEG compression, Base64 (RFC 4648 section 4) on both sides, and Exif reading are not modelled. Their outcomes are parameters of the methods that use them (decoded or not, saved or not, the orientation tag or a read failure), and pixels are an abstract grid of integers.
- AudioPipeline.AudioManager.StopAudioInput: the `IllegalStateException` that `stop()` raises on a recorder that never initialised is reported as `ok` false. It is not propagated to the caller, and the recording-stopped callback and job cancellation are not modelled.
- Camera.CameraManager.HandleCameraResult: a photo whose second `decodeFile` yields null means the source calls `compress` on null, which throws. The model has no exceptions, so it returns `None` and delivers nothing in that case.
- ScannerImage.Scale: maps each target pixel to the source pixel it falls in. It does not model the platform's bilinear filter, so only the size and the pixel positions are stated.
- Floating point: scale factors, temperatures, blood sugar, adherence rates, importance scores and the playback volume are Dafny `real`. No IEEE rounding is modelled. `round` and `roundToInt` are round half up, and the adherence and trend averages are left unrounded.
- Clocks and identifiers: `System.currentTimeMillis`, `datetime.now`/`utcnow`, `date.today` and `uuid4` are parameters. Python datetimes are integer microseconds and dates are day numbers. Orderings by ISO-8601 strings are modelled as orderings by those numbers.
- Language-model calls (memoir extraction, daily memoirs) are function parameters with no stated behaviour. Vietnamese lower-casing in the keyword test is the parameter `lower`.
- Database machinery: sessions, commits, rollbacks, joins and enum types are not modelled. Each table is a sequence in insertion order.
- Failed writes: a failure is a boolean parameter `succeeds` only in `Notifications.NotificationService.CreateNotification`, `Notifications.NotificationService.CreateEmergencyNotification`, `Medicines.MedicineService.CreateMedicineRecord`, `Medicines.MedicineService.LogMedicationTaken`, `Medicines.MedicineService.CreateMedicineFromScan`, `MemoirStore.MemoirDBService.CreateMemoir` and the daily memoir save (`createSucceeds`). There the model returns `None` or `False` as the source does.
- Users.UserService.CreateUser, Users.UserService.CreateFamilyRelationship, Users.UserService.UpdateElderlyProfile, Users.UserService.UpdateRelationshipPermissions, Conversations.ConversationService.CreateConversation, Conversations.ConversationService.AddMessage and the other update, mark and delete methods: a write that passes the source's own checks always succeeds. The exception branch, where a database error turns the result into `None` or `False`, is not modelled.
- Ties under `ORDER BY` keep insertion order (a stable sort). PostgreSQL guarantees no order among equal keys.
- Concurrency, coroutines, `synchronized` blocks, Android lifecycle, foreground-service notifications, audio focus, text-to-speech engines, the `AudioRecord`/`AudioTrack` devices and the WebSocket are not modelled. Their effects are sequential state changes, and what a device read or played is a parameter or a recorded list.
- Logging and user-visible alert, trend and reminder texts are modelled only where a stated property depends on them.
- The memoir-extraction service's text files (`load_conversation_history`, `append_to_memoir_file`, `get_memoir_file_info`), `get_background_task_status`, `get_auto_extraction_settings` and `smart_extraction_check` are file I/O or reporting around the modelled gates, so they are not modelled.
- `get_daily_conversations_for_user` and `check_existing_daily_memoir` are database reads. They are the model's `DailyMessages` and `HasMemoirOn`, which the modelled operations use directly.
- MemoirStore.MemoirDBService.GetMemoirStats: the average importance and the latest extraction date are not modelled. As written, the source computes the average through `db.func`, an attribute the database session does not have, so every call always falls into the error branch and a user with memoirs gets zero counts (`MemoirStore.MemoirStatsAsWritten`). The model states the counts the method evidently intends.
- Memoir queries not listed: `get_memoir`, `search_memoirs`, `get_memoirs_by_category`, `get_memoirs_by_time_period`, `get_memoirs_by_people`, `get_important_memoirs` and `delete_memoir` are single-row lookups or filters with no further rule.
- Health operations not listed: `create_health_record`, `get_health_record`, `get_user_health_records`, `get_health_summary`, `update_health_record` and `delete_health_record` are plain row operations. The vitals they store are the model's `HealthRecord`.
- Medicine operations not listed: `get_medicine_record`, `search_medicines`, `get_medication_logs`, `get_missed_medications`, `get_medicine_by_scan_result` and `get_medicine_stats` are plain queries.
- Medicines.MedicineService.GetUpcomingMedications returns its specification function `UpcomingFrom` directly. The source's loop is the module method `Medicines.UpcomingDoses`, which is proved to compute that function. Health.HealthService.GetLatestVitalSigns does call its loop method, `Health.ScanLatest`, which is proved to compute `LatestFrom`.
- Conversation operations not listed: `get_conversation`, `search_conversations`, `get_conversation_history_for_export`, `update_conversation_metadata` and `get_conversation_stats` are plain queries or JSON updates.
- User operations not listed: `get_user_by_id`, `get_user_by_contact`, `update_user`, `deactivate_user`, `update_family_profile`, `get_family_members`, `get_elderly_patients` and `search_users` are plain queries or updates of the kind `update_elderly_profile` shows. Profile columns without a rule of their own are not modelled.
- Users.UserService.UpdateRelationshipPermissions: a key that names an attribute other than the five boolean columns (the four permission flags and `is_active`) is ignored. The source would set any existing attribute of the relationship.
- Users.UserService.CreateUser: the extra user columns passed through `**kwargs` are not modelled.
- Notification operations not listed: `get_notification`, `get_user_notifications`, `get_notifications_by_type`, `get_notifications_by_priority`, `get_notification_stats` and `delete_notification` are plain queries. The medicine, appointment, health-check and custom reminder constructors are message templates around `create_notification`, which is modelled.
- Session file values: the JSON object is reduced to its two keys, each absent or a string. A value of another JSON type is not modelled.
- The duplicate copies of `calculateScaleFactor` in the two `MedicineInfoActivity.kt` files are the same rule as `CameraManager.kt` and are modelled once.
- Medicines.NewMedicine: the `scan_result` JSON column is not modelled; the scan is kept as its image path and confidence.
- Users.NewElderlyProfile: the `emergency_contacts` and `medical_insurance` JSON columns are not modelled.
- Users.UserService.UpdateElderlyProfile: requires that no extra keyword is `user_id`. Python refuses such a call before the method runs, because `user_id` is already its first parameter, so the requirement excludes no call the source accepts.
- Notifications.ApplyNotificationUpdate, Medicines.ApplyField and Users.ApplyProfileUpdate: a key naming a relationship rather than a column is treated as an unknown key and changes nothing. These keys are `user` for notifications, `user` and `medication_logs` for medicine records, and `user` and `family_relationships` for elderly profiles.
- Schedules.ScheduleManager.SaveSchedule: always returns true. The source's exception branch, which returns false, is for a storage failure, which is not modelled.

## Findings

| source | as written | input that shows it | evidently intended | confidence | as-written member | corrected member |
|---|---|---|---|---|---|---|
| frontend/GeminiLiveDemo/app/src/main/java/com/example/geminilivedemo/data/DataCacheManager.kt:282-293 | with no data type, `clearCacheForUser` removes the keys starting with `"null_<id>"` | a user with cached conversations, then `clearCacheForUser(id, null)`: the entry `conversations_<id>` survives | all of the user's cached lists and their timestamps leave both tiers | not executed | DataCache.NullTypeKeepsTypedEntries | DataCache.DataCacheManager.ClearAllForUser |
| backend/db/db_services/medicine_service.py:487-489 | the interaction test asks whether the whole medicine name occurs inside a listed drug name | "Warfarin Sodium" with "Aspirin" is not flagged, while the fragments "a" and "i" are | a listed drug name occurring inside the medicine name flags the pair | not executed | Medicines.FullNameMissedAsWritten | Medicines.FullNameFlagged |
| backend/db/db_services/health_service.py:230-238 | a blood pressure with a systolic value but no diastolic compares `None >= 110`, which raises, and the handler returns no alerts at all | newest systolic 150 with no diastolic, heart rate 130: no alerts instead of a high blood-pressure alert and a heart-rate alert | a missing diastolic is judged by the systolic alone, and the other vitals keep their alerts | not executed | Health.MissingDiastolicLosesAlerts | Health.CheckAlertsPressureAndPulse |
| backend/db/db_services/user_service.py:57-62 | the duplicate test compares `User.phone == None`, which SQLAlchemy turns into `phone IS NULL` | one user registered by phone "0901" only; a new user by phone "0902" only is refused | a sign-up is refused exactly when its given email or phone belongs to an existing user | not executed | Users.PhoneOnlySignUpRejectedAsWritten | Users.CreateRejectedIffTaken |
| backend/db/db_services/notification_service.py:442-447 | `reschedule_notification` passes `sent_at=None`, which `update_notification` skips | a notification sent at time 5 and rescheduled to 100 is unsent with send time 5 | a rescheduled notification is unsent with no send time | not executed | Notifications.SentNotificationRescheduledAsWritten | Notifications.RescheduledIsPending |
| backend/db/db_services/memoir_service.py:460-464 | the average importance is computed with `db.func.avg`, and the session `db` has no attribute `func`, so the handler's error branch returns empty statistics | any user with at least one memoir: total 0 instead of the number of memoirs | the counts of the user's memoirs, by category | not executed | MemoirStore.MemoirStatsAsWritten | MemoirStore.MemoirDBService.GetMemoirStats |
