# Verified models of six OpenJFX components

A Dafny 4.11 project that models the hardest code of six components of the repository and
proves what that code is for. `dafny verify dfyconfig.toml` checks all of it.

Code that updates variables, arrays and objects is modelled by methods and classes that do the
same; each is proved against a specification function, and the properties are lemmas about that
function. Reals stand for floats; machine integers are written out where their width matters.

| component | files | main results |
|---|---|---|
| gltrace, the GL/EGL trace recorder and replayer | `Words`, `Format`, `TraceWriter`, `Records`, `Layout`, `Calls`, `Replay`, `RoundTrip`, `Traces`, `Meaning`, `Recorder`, `Replayer`, `Session`, `Threads`, `ThreadedCalls` | a recorded run, replayed, gives exactly the calls that were made (`Session.RecordThenReplay`), the exact condition under which that holds of every interleaving of threads (`ThreadedCalls.ThreadedTrace`); call by call, the exact condition for it (`RoundTrip.CallBack`) |
| the Dalvik event queue | `EventList`, `EventProtocol`, `EventLoop` | order, once-only processing, no lost wake-up in every interleaving (`EventProtocol.EveryRun`); what is dropped by a stop |
| Decora software filters | `Grids`, `Pixels`, `BoxBlur`, `BoxShadow`, `Convolve`, `Sampler` | the fast loops compute the window sum, the convolution and the tent filter they stand for |
| the WebTerminal cursor | `TermScreen`, `TermCursor` | the cursor cache against recomputation, with the exact condition (`TermCursor.Terminal.MoveTo`) |
| the WebTerminal escape parser | `EscapeParser` | batched handling is the one-character machine; the exact condition for cutting the input (`EscapeParser.CutAnywhere`) |
| the triangle mesh and the slide show | `Mesh`, `SlideShow` | an oriented surface, recompute equals rebuild; slots agree with the list in every run |

`Seqs` and `Grids` hold facts about concatenation and about rows and columns.

## Where the code falls short of what it promises

Each of these is proved: a condition that says exactly when the promise is kept, or a concrete
input where it is not.

- `getFloatPtr` does not step over the second word that `putFloatPtr` wrote for NULL and for the
  marker value (`Format.FloatPtrBack`).
- A 32-bit pointer with its top bit set comes back sign-extended (`Format.PtrViewExact`).
- The names of `glGetAttachedShaders` stay in the stream when the replayer does not execute
  (`RoundTrip.AttachedBack`), and more than 31 attribute pairs end the replayer
  (`RoundTrip.ChooseBack`, `RoundTrip.CreateBack`).
- Six commands are recorded that the replayer does not implement (`Replay.SidesAgree`); a trace is
  replayed up to the first of them and no further (`Traces.HaltedTrace`).
- `glBindBuffer` updates its shadow variables after the lock is released: a draw of another thread in
  between may not be read back (`ThreadedCalls.BindRace`), and two such updates in the other order
  leave the wrong buffer (`ThreadedCalls.NotesCross`). A wrapper that a forwarded call enters again
  records nothing and still changes them (`ThreadedCalls.NestedSticks`).
- An executing replayer of `glGetActiveUniform` compares a name that the application did not ask
  for, and ends (`RoundTrip.UniformBack`).
- The shutdown event can be left unprocessed by the stop that follows it
  (`EventProtocol.ShutdownDropped`).
- A coloured box shadow can get fainter, by one, where the source gets more opaque or the spread grows
  (`BoxShadow.ColourMonotone`, `BoxShadow.ColourFalls`).
- An opaque window of the box blur stays opaque only for some window sizes
  (`BoxBlur.OpaqueWindow`).
- When `moveTo` appends lines, it fills the last one as if the column had not gone back to 0
  (`TermCursor.GoMeasure`, `TermCursor.AppendMisses`); the cache is then wrong until a move to
  another line that exists, and a wrong line until a walk from home (`TermCursor.GoReaches`).
- Where the input of `insertString` is cut into calls matters. A carriage return and a line feed in
  two calls are two controls instead of one; behind a line feed in line editing, or a form feed,
  columns are counted from -1 until the next call reads them again, and controls find another cursor
  cache (`EscapeParser.CutInTwo`, `EscapeParser.NewlineShifts`, `EscapeParser.HtmlShifts`,
  `EscapeParser.ReturnBehindFormFeed`); and a line that is too long and not wrapped is shown as two
  slices that replace more than one would (`EscapeParser.LongLineCut`).

## Model

| member | source | states |
|---|---|---|
| Words.FromLEOfLE | tools/gltrace/iolib.c:232-250 | the n low-order bytes of a number, put least significant first, give the number back |
| Words.PadWhole | tools/gltrace/iolib.c:291-292 | padding after n bytes takes the stream to a multiple of sizeof(int) |
| Format.IntBack | tools/gltrace/iolib.c:344-351 | getInt gives back what putInt wrote, and leaves exactly the bytes behind it |
| Format.FloatBack | tools/gltrace/iolib.c:369-376 | the same for getFloat and putFloat, bit pattern for bit pattern |
| Format.LongLongBack | tools/gltrace/iolib.c:393-400 | the same for getLongLong and putLongLong |
| Format.PtrBack | tools/gltrace/iolib.c:402-409 | getPtr takes as many bytes as putPtr wrote for the recording machine's pointer size; a 4-byte pointer comes back sign-extended |
| Format.PtrViewExact | tools/gltrace/iolib.c:402-409 | a pointer comes back unchanged if and only if it has 8 bytes or its top bit is clear; it keeps its low-order bytes, and only NULL comes back as NULL |
| Format.IntPtrBack | tools/gltrace/iolib.c:185-203 | getIntPtr undoes putIntPtr for every pointer, NULL and the marker value included |
| Format.FloatPtrBack | tools/gltrace/iolib.c:378-391 | getFloatPtr always gives the value back, and ends where putFloatPtr ended if and only if the pointer is not NULL and not the marker |
| Format.StringBack | tools/gltrace/iolib.c:411-421 | getString undoes putString for every C string; a NULL pointer comes back as the empty string |
| Format.BytesBack | tools/gltrace/iolib.c:423-436 | getBytes undoes putBytes; empty and NULL blobs come back as NULL |
| Format.FieldBack | tools/gltrace/iolib.c:335-443 | one statement for all seven kinds of argument: what comes back, and the exact condition under which the reader stands at the end of what was written |
| Layout.IntBytes | tools/gltrace/iolib.c:176-183 | an int goes out as its four bytes in two's complement, the lowest first |
| Layout.Digit | tools/gltrace/iolib.c:232-250 | byte k of a number is its k-th digit to the base 256 |
| Layout.StringBytes | tools/gltrace/iolib.c:271-292 | a string is its characters and one to four NULs, up to a whole number of ints |
| Layout.BlobBytes | tools/gltrace/iolib.c:294-320 | a blob is its size, its bytes and up to three zeros |
| Layout.HeaderBytes | tools/gltrace/iolib.c:65-69 | the twenty bytes that every trace starts with |
| Layout.PrefixBytes | tools/gltrace/iolib.c:160-173 | a command has its thread in front of it only when the thread changes |
| Records.FieldsBack | tools/gltrace/retrace.c:2485-2530 | a list of gets undoes a list of puts of the same kinds and consumes exactly its bytes |
| TraceWriter.Writer.StreamLength | tools/gltrace/iolib.c:126-154 | the number of bytes written is fileOffset - (endPtr - curPtr) |
| TraceWriter.Writer.constructor | tools/gltrace/iolib.c:51-82 | a writer starts with the header as its stream, at depth 0 and with thread tag 0 |
| TraceWriter.Writer.Enlarge | tools/gltrace/iolib.c:126-154 | going to the next chunk neither adds nor loses a byte |
| TraceWriter.Writer.Copy | tools/gltrace/iolib.c:232-269 | a run of bytes that crosses a chunk end reaches the stream whole and in order |
| TraceWriter.Writer.Align | tools/gltrace/iolib.c:291-292 | zeros are added up to the next multiple of 4 and no further, never across a chunk end |
| TraceWriter.Writer.PutInt | tools/gltrace/iolib.c:176-183 | appends the four bytes of the int at depth 1, and nothing at any greater depth |
| TraceWriter.Writer.PutFloat | tools/gltrace/iolib.c:204-211 | appends the four bytes of the float, at depth 1 only |
| TraceWriter.Writer.PutIntPtr | tools/gltrace/iolib.c:185-203 | appends one word, or two for NULL and for the marker, at depth 1 only |
| TraceWriter.Writer.PutFloatPtr | tools/gltrace/iolib.c:213-230 | appends one word, or two for NULL and for the marker, at depth 1 only |
| TraceWriter.Writer.PutLongLong | tools/gltrace/iolib.c:232-250 | appends eight bytes, split over two chunks where necessary, at depth 1 only |
| TraceWriter.Writer.PutPtr | tools/gltrace/iolib.c:251-269 | appends a pointer's bytes, split over two chunks where necessary, at depth 1 only |
| TraceWriter.Writer.PutString | tools/gltrace/iolib.c:270-292 | appends the characters, the NUL and the padding, or a zero word for NULL, at depth 1 only |
| TraceWriter.Writer.PutBytes | tools/gltrace/iolib.c:294-314 | appends the size, the bytes and the padding, at depth 1 only |
| TraceWriter.Writer.PutCmd | tools/gltrace/iolib.c:156-174 | takes the lock one level deeper; at depth 1 writes the opcode, and before it the thread when it differs from the last one |
| TraceWriter.Writer.PutTime | tools/gltrace/iolib.c:316-322 | writes both times at depth 1 and goes one level up |
| TraceWriter.Writer.EndCmd | tools/gltrace/iolib.c:324-330 | goes one level up and writes nothing |
| TraceWriter.Writer.Fini | tools/gltrace/iolib.c:110-120 | the file that is left is exactly the stream of bytes written |
| Replay.SidesAgree | tools/gltrace/retrace.c:2485-3640 | put for get, the replayer reads the fixed argument lists the wrappers write, except for six commands that it does not implement |
| Calls.PackedElement | tools/gltrace/gles.c:181-207 | element j of a packed blob, found at stride 0, is the element the application has at its own stride |
| Calls.PutsOk | tools/gltrace/gles.c:160-207 | every argument a wrapper puts is in range for the recording machine |
| Recorder.PackInto | tools/gltrace/gles.c:181-207 | the nested copying loops leave the packed elements in the buffer |
| Recorder.Recorder.PutVertexAttrib | tools/gltrace/gles.c:181-207 | one blob is put for each enabled attribute, in index order |
| Recorder.Recorder.PutNames | tools/gltrace/gles.c:1107-1123 | glGen* and glDelete* put a count and that many names |
| Recorder.Recorder.PutShaderSource | tools/gltrace/gles.c:1704-1730 | glShaderSource puts each string as a blob or as a C string, by its length |
| Recorder.Recorder.PutDraw | tools/gltrace/gles.c:962-987 | glDrawElements puts a pointer or the indices, and blobs only when no array buffer is bound |
| Recorder.Recorder.PutUniform | tools/gltrace/gles.c:1209-1231 | glGetActiveUniform puts those results whose pointers are not NULL |
| Recorder.Recorder.PutAttached | tools/gltrace/gles.c:1235-1257 | glGetAttachedShaders puts the count and the names that came back |
| Recorder.Recorder.PutChoose | tools/gltrace/egl.c:150-182 | eglChooseConfig puts the pairs up to EGL_NONE and as many configs as came back |
| Recorder.Recorder.PutCreate | tools/gltrace/egl.c:348-375 | eglCreateContext and eglCreateWindowSurface put the pairs up to EGL_NONE and the handle |
| Recorder.Recorder.Update | tools/gltrace/gles.c:261-283 | the wrappers' assignments to the shadow state are those of the specification |
| Recorder.Recorder.Record | tools/gltrace/gles.c:261-283 | a whole wrapper appends thread prefix, opcode, arguments and times, and updates the shadow state |
| Recorder.Recorder.RecordAll | tools/gltrace/gles.c:261-283 | any run of calls appends the records of the calls in order |
| Recorder.RecordTrace | tools/gltrace/iolib.c:51-120 | a traced run leaves the header and the records of its calls as the file |
| RoundTrip.AttrsBack | tools/gltrace/retrace.c:3437-3465 | an attribute list is read back when it has at most 31 pairs, and otherwise the reader exits |
| RoundTrip.SourcesBack | tools/gltrace/retrace.c:3128-3147 | the strings of glShaderSource are read back one by one |
| RoundTrip.PlainBack | tools/gltrace/retrace.c:2485-2530 | calls with a fixed list of arguments are read back if and only if the replayer implements them and they hold no NULL or marker float pointer |
| RoundTrip.NamesBack | tools/gltrace/retrace.c:2856-2865 | counted lists are read back |
| RoundTrip.ShaderSourceBack | tools/gltrace/retrace.c:3128-3147 | glShaderSource is read back |
| RoundTrip.VertexAt | tools/gltrace/gles.c:181-207 | the n-th blob of a draw is the packed array of the n-th enabled attribute |
| Calls.SizeofIsGL | tools/gltrace/gles.c:67-82 | the recorder's size of a type is what OpenGL ES says |
| Calls.QuadVertices | tools/gltrace/gles.c:163-163 | a draw of 6q indices, and up to five more, records 4q vertices |
| RoundTrip.ReplayedElement | tools/gltrace/retrace.c:302-308 | every vertex of every quad: for j < 4q, element j that the replayer passes on with stride 0 is, byte for byte, element j that the application had at its own stride |
| Meaning.BindNoted | tools/gltrace/gles.c:261-283 | glBindBuffer leaves the buffer noted for its target, and nothing else |
| Meaning.EnableNoted | tools/gltrace/gles.c:929-1020 | glEnableVertexAttribArray and glDisableVertexAttribArray switch one array on and off, and nothing else |
| Meaning.PointerNoted | tools/gltrace/gles.c:2223-2244 | glVertexAttribPointer leaves what it was given noted for one array, and nothing else |
| Meaning.CallMeant | tools/gltrace/retrace.c:2485-3640 | every argument and result of a call arrives in its place: numbers and texts as they are, pointers with their bits, indices with their bytes, results only where they were asked for |
| Meaning.SeenRunMeant | tools/gltrace/retrace.c:2468-3657 | so for a whole run: each call with its thread, opcode, times and values |
| RoundTrip.DrawBack | tools/gltrace/retrace.c:2802-2819 | with mirrored shadow states glDrawElements is parsed with as many blobs as were written |
| RoundTrip.UniformBack | tools/gltrace/retrace.c:2902-2939 | glGetActiveUniform is read back, optional results by the recorded pointers, but for an executing replayer that has no name to compare: it ends |
| RoundTrip.AttachedBack | tools/gltrace/retrace.c:2940-2968 | glGetAttachedShaders is read back if and only if the replayer executes or no names were recorded |
| RoundTrip.ChooseBack | tools/gltrace/retrace.c:3437-3465 | eglChooseConfig is read back if and only if it has at most 31 pairs |
| RoundTrip.CreateBack | tools/gltrace/retrace.c:3543-3569 | eglCreateContext and eglCreateWindowSurface are read back if and only if they have at most 31 pairs |
| RoundTrip.CallHalts | tools/gltrace/retrace.c:3439-3445 | at a command it does not implement, a list of more than 31 pairs, or a missing name that it compares, the replayer ends instead of reading something else |
| RoundTrip.CallBack | tools/gltrace/retrace.c:2485-3640 | every call is read back if and only if it meets the conditions a caller can check beforehand |
| Traces.EffectMirrors | tools/gltrace/retrace.c:2513-2524 | after each command the replayer's bindings and enabled flags agree with the recorder's |
| Traces.RealOpcode | tools/gltrace/retrace.c:3634-3639 | no opcode in use is a prefix, a terminator or the end mark |
| Traces.CommandBack | tools/gltrace/retrace.c:2473-2484 | the command behind an optional thread prefix is found, with the issuing thread |
| Traces.TurnBack | tools/gltrace/retrace.c:2473-3656 | one turn of the loop reads one recorded call, its arguments, times and thread |
| Traces.RunBack | tools/gltrace/retrace.c:2468-3657 | a run of calls is read back in full from any mirrored states, and the states are mirrored again |
| Traces.HeaderBack | tools/gltrace/iolib.c:83-108 | the header opens as a trace of this version and gives the recording machine's pointer size |
| Traces.WholeTrace | tools/gltrace/retrace.c:2468-3657 | a whole trace decodes to exactly the calls that were made, consumes every byte and stops at the end of the file |
| Traces.RunHalts | tools/gltrace/retrace.c:2468-3641 | a run is replayed exactly as far as the first call at which the replayer gives up |
| Traces.HaltedTrace | tools/gltrace/retrace.c:2468-3641 | the same for a whole file: the log is the calls before that one, in order |
| Traces.Resume | tools/gltrace/retrace.c:2468-3657 | stepping a frames and then b frames is stepping a + b frames |
| Traces.FramesSeen | tools/gltrace/retrace.c:3650-3656 | a replay of n frames stops at the limit exactly when it has seen n calls of eglSwapBuffers, right behind the last one |
| Replayer.Replayer.GetInt | tools/gltrace/iolib.c:344-351 | moves the read pointer as the reading of the unread bytes says |
| Replayer.Replayer.GetPtr | tools/gltrace/iolib.c:402-409 | reads a pointer of the recorded size |
| Replayer.Replayer.GetIntPtr | tools/gltrace/iolib.c:353-367 | steps over the second word of the marker case |
| Replayer.Replayer.GetFloatPtr | tools/gltrace/iolib.c:378-391 | looks at the second word of the marker case and does not step over it |
| Replayer.Replayer.GetString | tools/gltrace/iolib.c:411-421 | finds the NUL and steps over the padding |
| Replayer.Replayer.GetBytes | tools/gltrace/iolib.c:423-436 | reads size, blob and padding; a size that does not fit gives NULL |
| Replayer.Replayer.GetAttrList | tools/gltrace/retrace.c:3439-3448 | the loop that fills the fixed array stops at EGL_NONE, and exits when the array is full |
| Replayer.Replayer.GetBlobs | tools/gltrace/retrace.c:2807-2814 | one blob is read for each enabled attribute |
| Replayer.Replayer.GetCase | tools/gltrace/retrace.c:2485-3640 | the switch reads what the specification of the opcode says |
| Replayer.Replayer.Update | tools/gltrace/retrace.c:2513-2524 | the replayer's assignments to its shadow state are those of the specification |
| Replayer.Replayer.Turn | tools/gltrace/retrace.c:2473-3656 | one turn of the loop reports one entry or says why it stops |
| Replayer.Replayer.Process | tools/gltrace/retrace.c:2468-3657 | the loop as a whole does what the specification of a trace says, for any number of frames |
| Replayer.ReplayTrace | tools/gltrace/retrace.c:3879-3946 | opening and processing a file gives the log of its entries |
| Session.RecordThenReplay | tools/gltrace/retrace.c:3879-3946 | recording any run of calls and replaying the file gives exactly these calls, in order, each with what it said |
| Threads.Perform | tools/gltrace/iolib.c:156-329 | each call into the writer by the thread that may make it is one step of the machine of threads |
| Threads.AlwaysSerialised | tools/gltrace/iolib.c:156-174 | in every interleaving and at every nesting depth the trace is the complete outermost commands one after the other, each behind its thread tag where that changes |
| Threads.ThreadsIntact | tools/gltrace/iolib.c:156-174 | each thread's commands appear in the trace as that thread alone would have put them, in its order |
| Threads.SerialIsEncRun | tools/gltrace/iolib.c:160-174 | the serialised commands of calls are the bytes a single-threaded recorder would have written |
| ThreadedCalls.DrawSync | tools/gltrace/retrace.c:2802-2817 | whatever shadow states the two sides have, a draw is read back if and only if both have an element buffer or neither has, and as many arrays are read as were put; otherwise other arguments are read |
| ThreadedCalls.RecsBack | tools/gltrace/retrace.c:2468-3657 | calls that each saw a shadow state of their own are read back in full if and only if every draw found the element buffer as the replayer does and put as many arrays as that reads |
| ThreadedCalls.PutsSplit | tools/gltrace/gles.c:962-987 | the puts of a draw that looks at the element buffer first and at the array buffer later |
| ThreadedCalls.AlwaysRecorded | tools/gltrace/gles.c:261-283 | in every interleaving with its notes the stream is the recorded commands and what has been put of the one in progress |
| ThreadedCalls.ThreadedTrace | tools/gltrace/retrace.c:2477-2484 | whatever the interleaving, nesting, notes, and changes that nested wrappers make to the shadow variables, the replayer reads exactly the calls that were made, each credited to its thread, if and only if every draw found the element buffer, and put as many arrays, as the calls recorded before it say |
| ThreadedCalls.AlwaysCalm | tools/gltrace/gles.c:273-280 | in a run where no thread looks at a binding, or binds it again, between the record and the note of its last glBindBuffer, and no nested wrapper changes the shadow variables, every draw sees the shadow state of the replayer |
| ThreadedCalls.CalmTrace | tools/gltrace/gles.c:261-283 | such a run leaves the file of a single-threaded recorder, and is read back in full |
| ThreadedCalls.BindRace | tools/gltrace/gles.c:261-283 | a draw recorded between the record and the note of glBindBuffer, of either target, is read back if and only if the bind makes no difference to it |
| ThreadedCalls.NotesCross | tools/gltrace/gles.c:273-280 | a run of two threads, possible from every state in which nobody is at work, after which nothing waits to be noted and the recorder goes on with another buffer than the replayer |
| ThreadedCalls.NestedSticks | tools/gltrace/gles.c:1005-1020 | a run of one thread in which a wrapper that is entered again enables an array for the recorder and not for the replayer |
| EventList.EventQ.constructor | modules/graphics/src/dalvik/native/EventLoop.c:125-141 | a new queue is empty |
| EventList.EventQ.Push | modules/graphics/src/dalvik/native/EventLoop.c:35-49 | pushing puts the event before all others, for a queue of any size |
| EventList.EventQ.Pop | modules/graphics/src/dalvik/native/EventLoop.c:51-65 | popping takes the last event, for sizes 0, 1 and more, and leaves the others linked both ways |
| EventList.EventQ.WalkStays | modules/graphics/src/dalvik/native/EventLoop.c:51-65 | no walk along links from head or tail reaches an event that has been taken out |
| EventLoop.Push | modules/graphics/src/dalvik/native/EventLoop.c:35-49 | what eventq_push does is the producer's step of the protocol |
| EventLoop.Stop | modules/graphics/src/dalvik/native/EventLoop.c:100-105 | what eventq_stop does is the stopping step of the protocol |
| EventLoop.Start | modules/graphics/src/dalvik/native/EventLoop.c:107-115 | what eventq_start does is the starting step of the protocol |
| EventLoop.TakeTurn | modules/graphics/src/dalvik/native/EventLoop.c:75-92 | the tests of eventq_loop wait, leave or take the oldest event as the protocol says |
| EventProtocol.StepInv | modules/graphics/src/dalvik/native/EventLoop.c:35-105 | every step of producers, consumer and stop keeps the invariant |
| EventProtocol.AlwaysInv | modules/graphics/src/dalvik/native/EventLoop.c:35-105 | so does every run |
| EventProtocol.EveryRun | modules/graphics/src/dalvik/native/EventLoop.c:67-105 | in every interleaving processed, in hand and queued events are the pushed ones in push order; none is processed or freed twice; an unsignalled waiting consumer has an empty running queue, unless a producer is just between its change and its signal |
| EventProtocol.NeverStuck | modules/graphics/src/dalvik/native/EventLoop.c:75-92 | there is always a step to take, unless the loop waits for events that are not there |
| EventProtocol.StopIsFinal | modules/graphics/src/dalvik/native/EventLoop.c:79-79 | once a started queue is stopped nothing more is processed or freed |
| EventProtocol.ProcessedByTheStop | modules/graphics/src/dalvik/native/EventLoop.c:100-105 | an event is ever processed if and only if it was by the moment of the stop |
| EventProtocol.Drains | modules/graphics/src/dalvik/native/EventLoop.c:67-93 | from every reachable state of a started queue that nobody is about to stop, things can go on so that all that was pushed is processed, in the order of the pushes |
| EventProtocol.ShutdownDropped | modules/graphics/src/dalvik/native/activity.c:148-152 | the shutdown event, pushed just before the stop, can stay unprocessed and unfreed for good |
| Pixels.PackChan | modules/graphics/src/main/native-decora/SSEBoxBlurPeer.cc:72-76 | channels within a byte do not carry into each other when added up |
| Pixels.WindowSlide | modules/graphics/src/main/native-decora/SSEBoxBlurPeer.cc:60-71 | moving the window by one takes one sample out and one in |
| Pixels.Conservation | modules/graphics/src/main/native-decora/SSEBoxBlurPeer.cc:53-80 | over a line each sample is counted in exactly h windows |
| Pixels.ColumnTest | modules/graphics/src/main/native-decora/SSEBoxBlurPeer.cc:108-113 | the test srcoff >= voff says y >= vsize, because x stays below the scan |
| BoxBlur.NoOverflow | modules/graphics/src/main/native-decora/SSEBoxBlurPeer.cc:72-76 | for every window with 255*h an int, no product leaves int32 and every channel fits a byte |
| BoxBlur.Average | modules/graphics/src/main/native-decora/SSEBoxBlurPeer.cc:50-50 | up to 255*h = 2^23 each channel is the exact average rounded down, or that plus one |
| BoxBlur.ScaledBounds | modules/graphics/src/main/native-decora/SSEBoxBlurPeer.cc:50-76 | for every size, between which bounds a channel is: it is never rounded up, and not rounded down by more than kscale and the shift do |
| BoxBlur.SizeOne | modules/graphics/src/main/native-decora/SSEBoxBlurPeer.cc:58-76 | a window of one pixel leaves every pixel as it is |
| BoxBlur.CopyOfSize | modules/graphics/src/main/native-decora/SSEBoxBlurPeer.cc:49-80 | a blur to the same size copies the image |
| BoxBlur.FullWindow | modules/graphics/src/main/native-decora/SSEBoxBlurPeer.cc:50-50 | a full window of one value gives exactly that value |
| BoxBlur.OpaqueWindow | modules/graphics/src/main/native-decora/SSEBoxBlurPeer.cc:50-50 | for every window size: an opaque window stays opaque if and only if the division that made kscale lost less than 2^23 |
| BoxBlur.FlatStays | modules/graphics/src/main/native-decora/SSEBoxBlurPeer.cc:53-80 | a flat stretch of the source stays as it is |
| BoxBlur.StaysPremultiplied | modules/graphics/src/main/native-decora/SSEBoxBlurPeer.cc:72-76 | premultiplied sources give premultiplied results |
| BoxBlur.FilterHorizontal | modules/graphics/src/main/native-decora/SSEBoxBlurPeer.cc:36-84 | the running sums leave in every pixel the scaled sum of its own window, and nothing outside the image changes |
| BoxBlur.FilterVertical | modules/graphics/src/main/native-decora/SSEBoxBlurPeer.cc:87-135 | the same down the columns |
| BoxBlur.VerticalIsTransposedHorizontal | modules/graphics/src/main/native-decora/SSEBoxBlurPeer.cc:87-135 | what filterVertical leaves is the transpose of what filterHorizontal leaves for the transposed source |
| BoxShadow.AMax | modules/graphics/src/main/native-decora/SSEBoxShadowPeer.cc:51-53 | amax stays between 255 and 255*h for every spread |
| BoxShadow.ShadowProduct | modules/graphics/src/main/native-decora/SSEBoxShadowPeer.cc:69-72 | no product that is evaluated overflows |
| BoxShadow.SpreadPart | modules/graphics/src/main/native-decora/SSEBoxShadowPeer.cc:52-53 | amax is the sum of an opaque window less the spread's part of what it has above 255, with the rounding that truncation gives |
| BoxShadow.ShadowAverage | modules/graphics/src/main/native-decora/SSEBoxShadowPeer.cc:54-72 | up to amax = 2^23 the shadow is the sum as a part of amax, in 255ths and rounded down, or that plus one |
| BoxShadow.ShadowBounds | modules/graphics/src/main/native-decora/SSEBoxShadowPeer.cc:54-72 | for every amax, between which bounds the shadow of a sum is |
| BoxShadow.ChannelNear | modules/graphics/src/main/native-decora/SSEBoxShadowPeer.cc:136-191 | each channel of a coloured shadow is its component's part of the shadow, less than 2 below it and no more than the component above |
| BoxShadow.ColourChannels | modules/graphics/src/main/native-decora/SSEBoxShadowPeer.cc:136-191 | alpha, red, green and blue come from their own components |
| BoxShadow.ShadowMonotone | modules/graphics/src/main/native-decora/SSEBoxShadowPeer.cc:50-76 | a black shadow gets nowhere fainter when the spread or a source alpha grows |
| BoxShadow.ColourMonotone | modules/graphics/src/main/native-decora/SSEBoxShadowPeer.cc:148-187 | a channel of the coloured filter is non-decreasing in the spread and in every source alpha if and only if, at the smaller spread, the value just short of full shadow is no more than that of full shadow |
| BoxShadow.ColourFalls | modules/graphics/src/main/native-decora/SSEBoxShadowPeer.cc:148-187 | an image line of two pixels for which it is not: a more opaque source, or a larger spread, gives a fainter shadow |
| BoxShadow.ChannelFallsByOne | modules/graphics/src/main/native-decora/SSEBoxShadowPeer.cc:148-187 | in any case a channel falls by one at most |
| BoxShadow.PlainFits | modules/graphics/src/main/native-decora/SSEBoxShadowPeer.cc:148-187 | opaque and absent components meet the condition, and at full spread every component does |
| BoxShadow.FullAndNone | modules/graphics/src/main/native-decora/SSEBoxShadowPeer.cc:69-72 | an opaque window gives the full shadow, black or of the colour, and an empty one none |
| BoxShadow.FullSpread | modules/graphics/src/main/native-decora/SSEBoxShadowPeer.cc:51-55 | at full spread the shadow is full as soon as the sum reaches one opaque pixel |
| BoxShadow.BlackIsBlack | modules/graphics/src/main/native-decora/SSEBoxShadowPeer.cc:148-187 | the colour (0,0,0,1) gives what the black filter gives |
| BoxShadow.ColourPremultiplied | modules/graphics/src/main/native-decora/SSEBoxShadowPeer.cc:148-187 | a premultiplied colour gives premultiplied pixels |
| BoxShadow.FilterHorizontalBlack | modules/graphics/src/main/native-decora/SSEBoxShadowPeer.cc:36-78 | the running sum leaves in every pixel the shadow of its own window |
| BoxShadow.FilterVertical | modules/graphics/src/main/native-decora/SSEBoxShadowPeer.cc:131-191 | the same down the columns, black or of a colour |
| BoxShadow.BlackImage | modules/graphics/src/main/native-decora/SSEBoxShadowPeer.cc:83-126 | the whole coloured image, in opaque black, is the black one |
| Convolve.KOffNext | modules/graphics/src/main/native-decora/SSELinearConvolvePeer.cc:149-152 | koff turns through K..1 and never leaves it |
| Convolve.LastColumnStep | modules/graphics/src/main/native-decora/SSELinearConvolvePeer.cc:142-148 | loading a column changes exactly one slot of the ring |
| Convolve.TermsAgree | modules/graphics/src/main/native-decora/SSELinearConvolvePeer.cc:153-163 | each slot meets the weight of the sample it holds |
| Convolve.RingIsDirect | modules/graphics/src/main/native-decora/SSELinearConvolvePeer.cc:153-163 | at every column the sum over the ring is the direct convolution with the zero-extended source |
| Convolve.ConvolvePremultiplied | modules/graphics/src/main/native-decora/SSELinearConvolvePeer.cc:164-168 | weights that are not negative keep premultiplied pixels premultiplied |
| Convolve.ConvolvedChannels | modules/graphics/src/main/native-decora/SSELinearConvolvePeer.cc:164-168 | each channel is the convolution of that channel: 0 below 1, 255 above 255 - 1/32, its integer part between |
| Convolve.Identity | modules/graphics/src/main/native-decora/SSELinearConvolvePeer.cc:150-168 | one weight of 1 leaves every pixel as it is |
| Convolve.IdentityImage | modules/graphics/src/main/native-decora/SSELinearConvolvePeer.cc:110-175 | and copies the image, along rows and along columns |
| Convolve.Impulse | modules/graphics/src/main/native-decora/SSELinearConvolvePeer.cc:150-168 | a single sample spreads the weights, the last one first, over the columns behind it |
| Convolve.Load | modules/graphics/src/main/native-decora/SSELinearConvolvePeer.cc:142-148 | the ring holds the last K columns after each load |
| Convolve.Accumulate | modules/graphics/src/main/native-decora/SSELinearConvolvePeer.cc:153-163 | the inner loop yields the four convolved channels |
| Convolve.ConvolveLine | modules/graphics/src/main/native-decora/SSELinearConvolvePeer.cc:132-171 | a line gets its convolved pixels, and all indices stay in range |
| Convolve.FilterHV | modules/graphics/src/main/native-decora/SSELinearConvolvePeer.cc:106-178 | every pixel of every row, or column, is the clamped convolution of its line; more than 128 weights leave the image as it is |
| Convolve.LookupRounds | modules/graphics/src/main/native-decora/SSELinearConvolveShadowPeer.cc:166-173 | the three-way table lookup by the sum from -0.5 is the colour of the sum rounded half up and clamped to 0..255 |
| Convolve.Nearest | modules/graphics/src/main/native-decora/SSELinearConvolveShadowPeer.cc:166-173 | the alpha of a shadow is rounded to the nearest byte |
| Convolve.ShadowParts | modules/graphics/src/main/native-decora/SSELinearConvolveShadowPeer.cc:127-133 | each channel of a shadow's colour is the part of its own component |
| Convolve.ShadowTable | modules/graphics/src/main/native-decora/SSELinearConvolveShadowPeer.cc:127-133 | the table holds the shadow colour scaled by each alpha |
| Convolve.AccumulateAlpha | modules/graphics/src/main/native-decora/SSELinearConvolveShadowPeer.cc:166-169 | the inner loop yields the convolved alpha, half a step low |
| Convolve.ShadowFilterHV | modules/graphics/src/main/native-decora/SSELinearConvolveShadowPeer.cc:115-183 | every pixel is the shadow colour of its convolved alpha |
| Sampler.TwoTexels | modules/graphics/src/main/native-decora/SSEUtils.cc:66-93 | along one axis, at every real coordinate, the tent filter sees at most two texels, weighted by the fraction |
| Sampler.FourTaps | modules/graphics/src/main/native-decora/SSEUtils.cc:66-93 | the four taps are the whole zero-extended tent filter, at every real coordinate |
| Sampler.WeightsSum | modules/graphics/src/main/native-decora/SSEUtils.cc:73-93 | the four weights are not negative and sum to 1 |
| Sampler.TexelCentre | modules/graphics/src/main/native-decora/SSEUtils.cc:54-95 | a texel's centre returns the texel |
| Sampler.Interior | modules/graphics/src/main/native-decora/SSEUtils.cc:72-93 | the weights of the taps that are taken sum to 1 if and only if the place is between the outermost texel centres |
| Sampler.SampleRange | modules/graphics/src/main/native-decora/SSEUtils.cc:54-95 | a sample stays within 0 and full intensity, and premultiplied images give premultiplied samples |
| Sampler.Unseen | modules/graphics/src/main/native-decora/SSEUtils.cc:72-72 | where the guard fails the tent filter is zero |
| Sampler.TapOffsets | modules/graphics/src/main/native-decora/SSEUtils.cc:76-93 | no tap that is taken lies outside the image |
| Sampler.LAccum | modules/graphics/src/main/native-decora/SSEUtils.cc:46-52 | a tap adds its pixel's four channels, over 255 and weighted |
| Sampler.LSample | modules/graphics/src/main/native-decora/SSEUtils.cc:54-95 | leaves the filtered channels, over 255 |
| Sampler.LAccumSample | modules/graphics/src/main/native-decora/SSEUtils.cc:97-135 | adds the filtered channels times the factor |
| Sampler.FSample | modules/graphics/src/main/native-decora/SSEUtils.cc:144-185 | leaves the filtered components of a map of floats |
| Sampler.SamplersAgree | modules/graphics/src/main/native-decora/SSEUtils.cc:97-135 | laccumsample adds 255*factor times what lsample gives at the matching point |
| Sampler.CentrePixel | modules/graphics/src/main/native-decora/SSEUtils.cc:54-94 | at the centre of a pixel lsample gives its red, green, blue and alpha as parts of 255, in this order |
| Sampler.CentreTexel | modules/graphics/src/main/native-decora/SSEUtils.cc:144-186 | at the centre of a texel fsample gives its four floats |
| TermScreen.KidsMeasure | apps/experiments/WebTerminal/src/webterminal/WebTerminal.java:1836-1885 | delta2D over nodes is the measure of the characters they show |
| TermScreen.TabStops | apps/experiments/WebTerminal/src/webterminal/WebTerminal.java:1150-1152 | a tab goes to the next multiple of 8 |
| TermScreen.Widths | apps/experiments/WebTerminal/src/webterminal/WebTerminal.java:1799-1830 | U+200B takes no column and other characters one |
| TermScreen.LineEnds | apps/experiments/WebTerminal/src/webterminal/WebTerminal.java:1836-1885 | CR, LF, FF and CR LF each end one line, and so does a br |
| TermScreen.FlatPlug | apps/experiments/WebTerminal/src/webterminal/WebTerminal.java:1738-1771 | what the tree shows is what is shown before the cursor and then what is shown after it |
| TermScreen.BonesPlug | apps/experiments/WebTerminal/src/webterminal/WebTerminal.java:1635-1773 | changing text at one place leaves the elements of the whole tree as they are |
| TermScreen.DeltaPlug | apps/experiments/WebTerminal/src/webterminal/WebTerminal.java:183-187 | delta2D finds the input line where the characters before it end |
| TermCursor.MakeSpaces | apps/experiments/WebTerminal/src/webterminal/WebTerminal.java:1887-1895 | gives that many spaces |
| TermCursor.GoReaches | apps/experiments/WebTerminal/src/webterminal/WebTerminal.java:1601-1761 | a walk that counts from a place where it may not be ends at the goal if and only if the count is right, or the goal is on a later line, the line is right, and that line exists, the last line is counted as empty, or the goal is in column 0 |
| TermCursor.GoMeasure | apps/experiments/WebTerminal/src/webterminal/WebTerminal.java:1738-1761 | the walk that counts from where it is ends at the goal if and only if the goal's line exists, the last line is empty, or the goal is in column 0 |
| TermCursor.AppendMisses | apps/experiments/WebTerminal/src/webterminal/WebTerminal.java:1742-1760 | an input for which the appended spaces miss the goal's column |
| TermCursor.GoKeeps | apps/experiments/WebTerminal/src/webterminal/WebTerminal.java:1635-1773 | nothing on the screen is lost or reordered: only blanks are added, at the end of a line |
| TermCursor.GoFinds | apps/experiments/WebTerminal/src/webterminal/WebTerminal.java:1659-1702 | a goal that is on the screen is reached without adding anything |
| TermCursor.GoFromHome | apps/experiments/WebTerminal/src/webterminal/WebTerminal.java:1601-1614 | the walk from the cached position is the walk from home, where every character between takes a column |
| TermCursor.GoGrows | apps/experiments/WebTerminal/src/webterminal/WebTerminal.java:1635-1773 | no line disappears |
| TermCursor.Terminal.RecomputedIsMeasure | apps/experiments/WebTerminal/src/webterminal/WebTerminal.java:183-187 | what delta2D recomputes is the measure of what is shown before the cursor |
| TermCursor.Terminal.UpdateCursorCache | apps/experiments/WebTerminal/src/webterminal/WebTerminal.java:183-187 | sets the cache to what delta2D recomputes |
| TermCursor.Terminal.GetCursorLine | apps/experiments/WebTerminal/src/webterminal/WebTerminal.java:192-196 | returns the cached line, right or wrong, or else measures both line and column |
| TermCursor.Terminal.GetCursorColumn | apps/experiments/WebTerminal/src/webterminal/WebTerminal.java:201-205 | returns the cached column, right or wrong, or else measures both |
| TermCursor.Terminal.WalkText | apps/experiments/WebTerminal/src/webterminal/WebTerminal.java:1659-1703 | merges, walks and splits a text node as the walk along its characters says |
| TermCursor.Terminal.SpacesBeforeBreak | apps/experiments/WebTerminal/src/webterminal/WebTerminal.java:1640-1652 | the spaces go in front of the break |
| TermCursor.Terminal.Climb | apps/experiments/WebTerminal/src/webterminal/WebTerminal.java:1738-1771 | leaving spans changes nothing that is shown |
| TermCursor.Terminal.AppendBlanks | apps/experiments/WebTerminal/src/webterminal/WebTerminal.java:1742-1759 | appends the blank lines and spaces |
| TermCursor.Terminal.Walk | apps/experiments/WebTerminal/src/webterminal/WebTerminal.java:1635-1773 | the main loop over the tree goes where the walk along the characters goes, and ends |
| TermCursor.Terminal.MoveTo | apps/experiments/WebTerminal/src/webterminal/WebTerminal.java:1593-1792 | after moveTo the cache is the goal, the screen is that of the walk, no element has changed, and the cache equals what delta2D recomputes if and only if the goal's line existed, the last line was empty, or the goal is in column 0; from a cache that was wrong that still holds of a walk from home, and of a walk from the cached place the exact condition is that of GoReaches |
| TermCursor.Terminal.SaveCursor | apps/experiments/WebTerminal/src/webterminal/WebTerminal.java:224-227 | saves the cached position, or what delta2D recomputes where it is not known |
| TermCursor.Terminal.RestoreCursor | apps/experiments/WebTerminal/src/webterminal/WebTerminal.java:229-231 | goes to the saved position, truly so when its line exists and the cache was right or is not asked |
| TermCursor.Terminal.Excursion | apps/experiments/WebTerminal/src/webterminal/WebTerminal.java:224-231 | any moves to column 0 or to lines that exist, between a save and a restore, leave the cursor where it was |
| EscapeParser.FeedAppend | apps/experiments/WebTerminal/src/webterminal/WebTerminal.java:1167-1341 | the one-character machine reads two inputs as it reads them joined |
| EscapeParser.CutInTwo | apps/experiments/WebTerminal/src/webterminal/WebTerminal.java:1167-1377 | handling an input in two calls, the second of which reads the column again, comes to the same if and only if the cut does not part a CR LF that would be taken as one, does not fall before a character or control that comes out differently from the cursor cache as it is and as it is read again, and does not fall in a slice whose count of columns goes back further on |
| EscapeParser.CutAnywhere | apps/experiments/WebTerminal/src/webterminal/WebTerminal.java:1167-1377 | the same, in both directions, for every cutting of every input into any number of calls: characters, columns, breaks, slices, what the controls do and how they leave the cursor cache |
| EscapeParser.ColumnStays | apps/experiments/WebTerminal/src/webterminal/WebTerminal.java:1271-1299 | the cached column is unknown only behind a CR LF, a line feed in line editing outside insert mode, a character counted as -1, such as a form feed, or backspaces behind those |
| EscapeParser.CutWhereLost | apps/experiments/WebTerminal/src/webterminal/WebTerminal.java:1260-1331 | where a line feed or a form feed has left the count at -1, what a cut does depends on the next character: it always matters before one that is shown and before a backspace over a character, before a form feed if a slice is waiting, and otherwise if the control answers the cache as it is differently from the cache read again |
| EscapeParser.NewlineShifts | apps/experiments/WebTerminal/src/webterminal/WebTerminal.java:1274-1291 | an input whose second character after a line feed is counted in column 1 in one call and in column 2 in two |
| EscapeParser.HtmlShifts | apps/experiments/WebTerminal/src/webterminal/WebTerminal.java:475-477 | HTML inserted behind a line feed, by the control that leaves the cache alone: the next character is counted behind the HTML in one call, and in column 1 in two |
| EscapeParser.ReturnBehindFormFeed | apps/experiments/WebTerminal/src/webterminal/WebTerminal.java:1260-1272 | a form feed leaves the cached line behind, so that a CR LF at the end of the scroll region is two controls in one call and one in two |
| EscapeParser.LongLineCut | apps/experiments/WebTerminal/src/webterminal/WebTerminal.java:1343-1363 | a line that is too long and not wrapped, in which a cut makes the second slice replace more old text |
| EscapeParser.LinesFill | apps/experiments/WebTerminal/src/webterminal/WebTerminal.java:1320-1331 | text fills lines of exactly wrapWidth columns, and a break comes where the next character would not fit, not before |
| EscapeParser.CacheIsTrue | apps/experiments/WebTerminal/src/webterminal/WebTerminal.java:1343-1376 | where long lines are wrapped, the cache that is counted along stays what delta2D would measure, through text, bells, breaks and the line feeds of insert mode |
| EscapeParser.NewLineForgets | apps/experiments/WebTerminal/src/webterminal/WebTerminal.java:1260-1283 | a line feed in line editing and CR LF make the cursor forget where it is; a carriage return keeps the line and counts from 0 |
| EscapeParser.BackspaceUndoes | apps/experiments/WebTerminal/src/webterminal/WebTerminal.java:1293-1299 | a character and a backspace over it leave the cache as it was |
| EscapeParser.ModeSwitches | apps/experiments/WebTerminal/src/webterminal/WebTerminal.java:534-560 | ESC [ 4 h switches insert mode on and ESC [ 4 l off |
| EscapeParser.RunErased | apps/experiments/WebTerminal/src/webterminal/WebTerminal.java:1167-1341 | without carriage returns the machine on the screen is the one-character machine, line breaks aside |
| EscapeParser.ChunksErased | apps/experiments/WebTerminal/src/webterminal/WebTerminal.java:1167-1341 | so for every cutting of every such input the same characters are shown in order with the same controls between |
| EscapeParser.FeedDigits | apps/experiments/WebTerminal/src/webterminal/WebTerminal.java:1204-1207 | a number of up to 31 bits is parsed back from its digits |
| EscapeParser.CsiBack | apps/experiments/WebTerminal/src/webterminal/WebTerminal.java:1202-1227 | printing any list of parameters as a control sequence and parsing it gives the list |
| EscapeParser.OscBack | apps/experiments/WebTerminal/src/webterminal/WebTerminal.java:1229-1256 | an operating system control comes back with its number and its text, whether BEL or NUL ends it |
| EscapeParser.DigitWraps | apps/experiments/WebTerminal/src/webterminal/WebTerminal.java:1204-1207 | longer numbers are right modulo 2^32 |
| EscapeParser.ActsBack | apps/experiments/WebTerminal/src/webterminal/WebTerminal.java:1174-1331 | whatever acts a host sends the codes of, ESC 7, ESC 8, ESC M, CSI, OSC, the control characters and text, the parser finds exactly these, in order |
| EscapeParser.CodesDone | apps/experiments/WebTerminal/src/webterminal/WebTerminal.java:1167-1341 | and they are what is done on the screen, in however many calls they come |
| EscapeParser.OtherEscapes | apps/experiments/WebTerminal/src/webterminal/WebTerminal.java:1176-1200 | any other character behind ESC, or behind ESC ] and a number, ends the sequence and does nothing |
| EscapeParser.CopyOf | apps/experiments/WebTerminal/src/webterminal/WebTerminal.java:1211-1213 | the longer array starts with the old parameters |
| EscapeParser.Terminal.Semicolon | apps/experiments/WebTerminal/src/webterminal/WebTerminal.java:1208-1217 | a parameter is appended, the array made or doubled in time |
| EscapeParser.Terminal.GetCursorLine | apps/experiments/WebTerminal/src/webterminal/WebTerminal.java:192-196 | the cached line, or else both line and column are measured |
| EscapeParser.Terminal.GetCursorColumn | apps/experiments/WebTerminal/src/webterminal/WebTerminal.java:201-205 | the cached column, or else both are measured |
| EscapeParser.Terminal.InsertSimpleOutput | apps/experiments/WebTerminal/src/webterminal/WebTerminal.java:1343-1376 | shows a slice, and leaves the cache on the line where it began and in the column where it ends |
| EscapeParser.Terminal.InsertWrapBreak | apps/experiments/WebTerminal/src/webterminal/WebTerminal.java:1466-1476 | a break leaves column 0, and the next line if the line was known |
| EscapeParser.Terminal.CarryOut | apps/experiments/WebTerminal/src/webterminal/WebTerminal.java:1263-1319 | what a control does and how it leaves the cache, both of which may depend on what the cache held |
| EscapeParser.Terminal.Return | apps/experiments/WebTerminal/src/webterminal/WebTerminal.java:1260-1272 | a carriage return is taken with the line feed behind it exactly if the cached line is not the last of the scroll region |
| EscapeParser.Terminal.InNumberList | apps/experiments/WebTerminal/src/webterminal/WebTerminal.java:1202-1227 | a character of a control sequence is one step of the machine |
| EscapeParser.Terminal.InSequence | apps/experiments/WebTerminal/src/webterminal/WebTerminal.java:1176-1257 | so is every character inside an escape sequence |
| EscapeParser.Terminal.Character | apps/experiments/WebTerminal/src/webterminal/WebTerminal.java:1320-1331 | a character that is shown waits in its slice; a break comes before it where it would overflow the line |
| EscapeParser.Terminal.Do | apps/experiments/WebTerminal/src/webterminal/WebTerminal.java:1240-1319 | carries out a control, and behind a control sequence reads the column again |
| EscapeParser.Terminal.Outside | apps/experiments/WebTerminal/src/webterminal/WebTerminal.java:1258-1333 | a character outside escape sequences is one step of the machine, CR LF one step for both |
| EscapeParser.Terminal.InsertString | apps/experiments/WebTerminal/src/webterminal/WebTerminal.java:1167-1341 | showing the text in slices does what the machine does character by character |
| Mesh.IndexInside | apps/toys/FX8-3DFeatures/src/fx83dfeatures/PNTMeshViewer.java:195-268 | every index in the face array is in range |
| Mesh.EdgeOnce | apps/toys/FX8-3DFeatures/src/fx83dfeatures/PNTMeshViewer.java:195-268 | no directed edge belongs to two triangles, or twice to one |
| Mesh.RunsBack | apps/toys/FX8-3DFeatures/src/fx83dfeatures/PNTMeshViewer.java:195-268 | every edge off the rim is run back by the triangle across it |
| Mesh.RimIsOpen | apps/toys/FX8-3DFeatures/src/fx83dfeatures/PNTMeshViewer.java:195-268 | no edge of the rim is run back |
| Mesh.SameTurn | apps/toys/FX8-3DFeatures/src/fx83dfeatures/PNTMeshViewer.java:195-268 | all triangles turn the same way, and each is half a cell |
| Mesh.OnlyOne | apps/toys/FX8-3DFeatures/src/fx83dfeatures/PNTMeshViewer.java:82-148 | vertices or normals that fit a grid and a height function are unique |
| Mesh.PutFace | apps/toys/FX8-3DFeatures/src/fx83dfeatures/PNTMeshViewer.java:226-236 | the nine slots of a triangle are filled, and no other slot is touched |
| Mesh.CellCorners | apps/toys/FX8-3DFeatures/src/fx83dfeatures/PNTMeshViewer.java:197-204 | the arithmetic of the loop gives the corners of a cell's two triangles |
| Mesh.SetPoints | apps/toys/FX8-3DFeatures/src/fx83dfeatures/PNTMeshViewer.java:90-105 | the points are those of the height function |
| Mesh.ComputeMesh | apps/toys/FX8-3DFeatures/src/fx83dfeatures/PNTMeshViewer.java:82-148 | in place, points and normals become those of the new height function; the source's assertion on equal normal indices holds |
| Mesh.BuildVertices | apps/toys/FX8-3DFeatures/src/fx83dfeatures/PNTMeshViewer.java:168-187 | the points and the texture coordinates of a fresh mesh |
| Mesh.BuildFaces | apps/toys/FX8-3DFeatures/src/fx83dfeatures/PNTMeshViewer.java:195-268 | the normals and faces of a fresh mesh, each slot filled in its turn |
| Mesh.BuildTriangleMesh | apps/toys/FX8-3DFeatures/src/fx83dfeatures/PNTMeshViewer.java:150-268 | a fresh mesh has the points, normals and faces of its grid and height function |
| Mesh.RecomputeIsRebuild | apps/toys/FX8-3DFeatures/src/fx83dfeatures/PNTMeshViewer.java:82-268 | recomputing a mesh in place gives the arrays that a fresh build gives |
| Mesh.OnSurface | apps/toys/FX8-3DFeatures/src/fx83dfeatures/PNTMeshViewer.java:90-104 | the grid spans -10 to 10 both ways in equal steps, and the height is taken there |
| Mesh.TextureFollows | apps/toys/FX8-3DFeatures/src/fx83dfeatures/PNTMeshViewer.java:168-184 | the texture lies flat on the surface, u along x and v along y |
| Mesh.CellNormals | apps/toys/FX8-3DFeatures/src/fx83dfeatures/PNTMeshViewer.java:186-262 | the normals of a cell are those of its two triangles, in the order of their corners |
| SlideShow.BackAgain | apps/toys/FXSlideShow/src/fxslideshow/Files.java:140-173 | a step that succeeds is undone by the step the other way |
| SlideShow.RoundTheLoop | apps/toys/FXSlideShow/src/fxslideshow/Files.java:140-152 | k steps forward in a loop of n lead to the current place plus k modulo n |
| SlideShow.Files.SetLoop | apps/toys/FXSlideShow/src/fxslideshow/Files.java:184-188 | sets the neighbours of the current file |
| SlideShow.Files.Next | apps/toys/FXSlideShow/src/fxslideshow/Files.java:140-152 | moves forward if there is a next file, and keeps the neighbours right |
| SlideShow.Files.Previous | apps/toys/FXSlideShow/src/fxslideshow/Files.java:158-170 | moves back if there is a previous file, and keeps the neighbours right |
| SlideShow.Show.constructor | apps/toys/FXSlideShow/src/fxslideshow/FXSlideShow.java:647-655 | the first slots hold the current file and the next one, if any |
| SlideShow.Show.Succeeded | apps/toys/FXSlideShow/src/fxslideshow/FXSlideShow.java:125-142 | a task that is done is shown only if it is the current one |
| SlideShow.Show.DropBehind | apps/toys/FXSlideShow/src/fxslideshow/FXSlideShow.java:444-456 | the slot behind gets the current task or nothing; exactly the running ones among the dropped tasks are cancelled |
| SlideShow.Show.TakeAhead | apps/toys/FXSlideShow/src/fxslideshow/FXSlideShow.java:458-478 | the task ahead, or a new one, becomes the current one, and the next one ahead is given to the executor |
| SlideShow.Show.NextImage | apps/toys/FXSlideShow/src/fxslideshow/FXSlideShow.java:419-479 | keeps the slots in agreement with the list: CURRENT holds the current file, NEXT and PREV are empty or hold their neighbours, all distinct, given to the executor and not cancelled; exactly the running ones among the dropped tasks are cancelled |
| SlideShow.Show.ThereAndBack | apps/toys/FXSlideShow/src/fxslideshow/FXSlideShow.java:450-458 | with previous images saved, a step and the step back leave the same task current |
| SlideShow.Show.Play | apps/toys/FXSlideShow/src/fxslideshow/FXSlideShow.java:481-489 | every run of keys keeps this agreement, with the executor at work in between, and ends at the place the keys lead to |

## Left out

gltrace:

- The GL, EGL and OpenGL calls themselves, and mmap, open and truncate failures: a mapped chunk
  is an array, memory is a function from addresses to bytes, results and times are arbitrary.
- `eglGetConfigAttrib`: its four gets are arguments of one C call, whose order C leaves open.
- The opcodes of the Mac OS X extensions.
- ThreadedCalls.ThreadedTrace: `glVertexAttribPointer` notes its array before it forwards the call and
  not behind it, which only a nested call for the same array could tell.
- The printing of calls, the object maps of an executing replayer, and the frame-by-frame prompt.
- An executing replayer that ends because it compares a missing name does so behind the printing of
  that call, which the log does not have.
- Attribute indices past the replayer's array, and an executing replayer's results that differ
  from the recorded ones.
- Sizes near 2^31, where the rounding up in `getString` and `getBytes` would leave an int.

Event queue:

- The failure to attach the consumer to the VM, and use of the queue after its mutex is destroyed.
- The calls into Java made for an event; freeing it is a list of freed names.

Decora filters:

- IEEE rounding in the convolution, the samplers, spread and colour: reals instead of floats.
- `filterVector` of the convolution peers, and the unused transposing blur.
- Coordinates too large for the cast to an int in the samplers.
- `filterHV` with no weights at all, which its callers never pass.

Terminal:

- TermCursor.Terminal.MoveTo: the nodes under cursorHome are values, so what a script that holds on
  to a node would see is not modelled; carriage returns and tabs, which `insertString` never puts
  into a text, embedded objects and nested blocks are left out, and so are a start other than
  cursorHome, a missing input line, the form without added space, and a `columnWidth` other than
  the one it always has.
- TermCursor.Terminal.WalkText: a tab just before the end of cursorHome can carry the column past
  the goal, where the cache is set to the goal all the same; tabs are left out.
- Styles, erasing, scrolling, insertion and deletion of lines, focus, keys and the input line.
- EscapeParser.Terminal.Do: what the screen answers and what a control does are parameters; they may
  depend on all that has been shown and done, and a control on what the cursor cache holds.
- EscapeParser.Terminal.InsertSimpleOutput: the old text that a slice replaces, or pushes to the
  right in insert mode, is not part of the state. The log notes where two slices cannot be put
  together: where the count goes back, ahead of a tab, and, in insert mode, away from the cached
  place. The two moves in insert mode are taken to arrive on the cached line.
- EscapeParser.Screen: the width, the wrapping and the line editing mode do not change in a run.

Mesh and slide show:

- Float rounding of coordinates and normals, and overflow of index arithmetic; textures and the
  other viewers.
- Transitions, the reload key, the auto-forward timer and failed images.
- SlideShow.Files.constructor: the list does not change once the show has started; reading
  directories and shuffling are left out.

Other parts of the repository, such as the transfer of UTF-8 in `WebOutputStream`, the pty console
and the Android launch code, are glue with little to prove.
