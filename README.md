# Garbage classifier and Arduino sorter: the rules of its Python scripts

The system is a hackathon garbage sorter. A camera image is classified as
paper, metal, plastic, glass or trash (or the four-class variant with
"other"), and the one-character command for the class goes to an Arduino
that drives two servos. Around that core sit a set of Python scripts:

- the classifier's label table (`logic.py`);
- the Flask web classifier and its state (`webapp_5class.py`);
- a setup checker (`check_setup.py`);
- a port monitor (`check_arduino_connection.py`);
- a diagnostic tool and a troubleshooter (`arduino_diagnostic.py`, `fix_arduino_connection.py`);
- two servo test scripts (`test_flap_servo.py`, `test_positioning_servo.py`);
- two dataset builders (`create_5_class_dataset.py`, `prepare_dataset.py`).

This project models the deterministic rules in those scripts and proves
properties of them:

- how a label becomes a command character;
- when a classification is accepted, and how the threshold is clamped;
- how the classifier's tables are rewritten for a four-class model;
- which serial ports count as "Arduino-like", and how the first one is chosen;
- how requirement lines are parsed, and how missing packages are collected;
- how error messages are turned into hints;
- which processes are flagged as blocking a port;
- how the monitor reports changes;
- how the dataset builders split and copy the images.

The environment is an input to every model: the enumerated ports, which
modules import, what opening a device does, the process table, the
directory tree and the shuffle.

One module per script. Shared pieces:

- `Wrappers` (Option);
- `Strings` (`str.lower` on ASCII letters, `str.strip`, substring test, `split(...)[0]`, `join`);
- `Sequences` (filter, subsequence, sortedness);
- `SerialPorts` (the port record and the two keyword tests, used by five scripts).

The scripts contain no serial connection manager: no retries and no
handshake. The web app only returns the command character in its JSON reply
(`webapp_5class.py:199`).

## Model

| member | source | states |
|---|---|---|
| Strings.BeforeFirst | check_setup.py:59 | `s.split(sep)[0]` is a prefix of `s`, holds no `sep`, and is either all of `s` or stops where `sep` begins |
| Strings.BeforeFirstWhole | check_setup.py:59 | the split part is the whole string iff the separator does not occur |
| Strings.StripBlankIff | check_setup.py:60 | `strip()` is empty iff every character is whitespace |
| Strings.LowerJoin | arduino_diagnostic.py:222 | lower-casing a joined command line is joining the lower-cased arguments |
| Strings.JoinContainsPart | arduino_diagnostic.py:222 | a word inside one argument occurs in the joined command line |
| SerialPorts.ExtraKeywordsRedundant | check_arduino_connection.py:20-22 | the seven keywords accept exactly the texts the five accept, because `usbmodem` and `usbserial` contain `usb` |
| SerialPorts.ExtendedMatchIff | check_setup.py:156-158 | the description-or-device test is the five-keyword description test widened to the device path |
| SerialPorts.ExtendedAcceptsSuperset | check_arduino_connection.py:20-22 | the seven-keyword filter keeps an order-preserving superset of what the five-keyword filter keeps |
| SerialPorts.ExtendedCandidatesWithFiveKeywords | check_arduino_connection.py:20-22 | dropping `usbmodem` and `usbserial` never changes which ports are kept |
| SerialPorts.BridgeIsCandidate | arduino_diagnostic.py:78-79 | a "Silicon Labs CP210x UART Bridge" is Arduino-like by its description |
| SerialPorts.NoKeywordIn | arduino_diagnostic.py:78-79 | a text that lacks certain letters holds none of the five keywords once lower-cased |
| SerialPorts.BluetoothIsNotCandidate | check_setup.py:156-158 | the macOS Bluetooth port is not Arduino-like by description or by device |
| SerialPorts.BluetoothPathHasNoKeyword | check_setup.py:158 | the Bluetooth device path holds no keyword |
| SerialPorts.FirstCandidateIndex | test_flap_servo.py:13-16 | the index of the first port whose description matches: no earlier port matches, and None iff no port matches |
| SerialPorts.FindArduino | test_flap_servo.py:10-16 | the early-return loop returns the device of the first description match, or None |
| SerialPorts.FirstCandidateIsHead | test_positioning_servo.py:10-16 | `find_arduino` returns the head of the description-only filter |
| SerialPorts.FirstCandidateIgnoresDevices | test_flap_servo.py:14 | the port chosen depends on the descriptions only, never on the device paths |
| Logic.LabelToCommand | logic.py:49-51 | the command is always one of the table's characters |
| Logic.LabelToCommandCases | logic.py:49-51 | paper→P, metal→M, plastic→L, and O exactly for every other label |
| Logic.ClassTableComplete | logic.py:10-11 | the table's keys are exactly `CLASSES`, and distinct classes get distinct characters |
| Logic.Name | logic.py:27 | `PurePath.name` is the longest slash-free end of the path |
| Logic.LastDot | logic.py:27 | the index of the last '.', or -1 when there is none |
| Logic.Suffix | logic.py:27 | `suffix` is empty or a dot followed by at least one character and no further dot |
| Logic.IterImages | logic.py:23-33 | `list(iter_images(path))` fails exactly for a path that is neither a file nor a directory, where `iterdir` raises |
| Logic.IterImagesOfOther | logic.py:26-31 | a missing path or FIFO gives the error even with an image suffix, which as a file would be yielded |
| Logic.IterImagesOfFile | logic.py:26-29 | a file yields itself iff its lower-cased suffix is an image suffix, otherwise nothing |
| Logic.IterImagesOfDirectory | logic.py:31-33 | a directory yields exactly its file entries with an image suffix, as a subsequence of the listing, sorted when the listing is |
| Logic.NameWithoutSlash | logic.py:27 | a path without '/' is its own name |
| Logic.SuffixOfPlainName | logic.py:27 | the suffix starts at the last dot, unless that dot is the name's first or last character |
| Logic.UpperCaseSuffix | logic.py:27 | the suffix of `cat.JPG` is `.JPG` |
| Logic.UpperCaseSuffixCounts | logic.py:27 | an upper-case image suffix counts |
| Logic.NoSuffixIsNoImage | logic.py:27 | a path without a suffix is no image |
| Logic.HiddenFileHasNoSuffix | logic.py:27 | `.png` has no suffix, so it is no image |
| Logic.OnlyLastSuffixCounts | logic.py:27 | `a.png.txt` is no image: only the last suffix counts |
| Webapp5Class.FiveLabelSets | webapp_5class.py:29-43 | classes, colour keys and command keys of the 5-class tables are the same five labels |
| Webapp5Class.FourLabelSets | webapp_5class.py:70-76 | the same for the tables after the 4-class rewrite, over four labels |
| Webapp5Class.BothTablesAgree | webapp_5class.py:29-43 | every class has a colour and a command and no table has another key, before and after the rewrite |
| Webapp5Class.CommandsAgreeWithLogic | webapp_5class.py:199 | paper, metal and plastic get the same characters as in `logic.py`; an unknown label gets 'T' here and 'O' there |
| Webapp5Class.AdaptFromFiveClasses | webapp_5class.py:67-76 | from agreeing 5-class tables the rewrite succeeds, keeps agreement and the entries of paper, metal and plastic, gives other 'T' and trash's colour, and removes glass and trash |
| Webapp5Class.AdaptedKeys | webapp_5class.py:71-76 | adding other and deleting glass and trash turns five keys into four |
| Webapp5Class.AdaptFiveTables | webapp_5class.py:70-76 | the rewrite of the initial tables gives the 4-class tables and succeeds |
| Webapp5Class.AdaptFourTables | webapp_5class.py:73-81 | rewriting tables that are already 4-class stops at the first `del` with `KeyError` and leaves them unchanged |
| Webapp5Class.FirstLoaded | webapp_5class.py:58-61 | the first candidate path that yields a model |
| Webapp5Class.LoadFromFiveTables | webapp_5class.py:48-84 | from the initial tables, loading succeeds iff some path yields a model; the first model is kept, and the tables become 4-class exactly when it has four class names |
| Webapp5Class.LoadFromFourTables | webapp_5class.py:58-81 | once 4-class, the tables never change; a load then succeeds iff some model does not have four names |
| Webapp5Class.Gate | webapp_5class.py:194-207 | accepted iff a label exists and confidence > threshold; the command is the table entry or 'T', the colour the entry or `#FFFFFF`; otherwise low-confidence or no-detection |
| Webapp5Class.GateRejectsEquality | webapp_5class.py:194 | a confidence equal to the threshold is rejected |
| Webapp5Class.GateMonotone | webapp_5class.py:194 | lowering the threshold never rejects an accepted classification |
| Webapp5Class.GateCommandsWithFiveClasses | webapp_5class.py:199 | with the 5-class tables the command is one of P, M, L, G, T, and T exactly for labels outside paper/metal/plastic/glass |
| Webapp5Class.Clamp | webapp_5class.py:229 | the result lies in [0.1, 1.0], equals the input when it is in range, and is the nearer bound otherwise |
| Webapp5Class.ClampIdempotent | webapp_5class.py:229 | clamping twice is clamping once |
| Webapp5Class.ClampMonotone | webapp_5class.py:229 | the clamp preserves order |
| Webapp5Class.ValidTablesAgree | webapp_5class.py:29-43 | a valid classifier's tables agree with its class list |
| Webapp5Class.GarbageClassifier5Class.constructor | webapp_5class.py:20-46 | the defaults, then the model and tables `load_model` leaves |
| Webapp5Class.GarbageClassifier5Class.AdaptTables | webapp_5class.py:70-76 | the in-place rewrite, with its `KeyError` stops, gives the tables and result of the step-by-step specification |
| Webapp5Class.GarbageClassifier5Class.TryPath | webapp_5class.py:59-81 | one path of the loop: a missing file or a load error changes nothing, a loaded model is kept and a 4-class one triggers the rewrite |
| Webapp5Class.GarbageClassifier5Class.LoadModel | webapp_5class.py:48-84 | the loop's result, model and tables are those of the specification over the four paths, and the tables stay 5-class or 4-class |
| Webapp5Class.GarbageClassifier5Class.StartCamera | webapp_5class.py:105-118 | a new capture replaces the old one; only a capture that opens sets the index and the running flag |
| Webapp5Class.GarbageClassifier5Class.StopCamera | webapp_5class.py:120-126 | afterwards the camera is not running and there is no capture |
| Webapp5Class.GarbageClassifier5Class.GetFrame | webapp_5class.py:128-138 | a frame exists iff an open capture is running and delivers one |
| Webapp5Class.GarbageClassifier5Class.ClassifyFrame | webapp_5class.py:140-154 | no model or no probabilities gives (None, 0.0); otherwise the top class and its confidence |
| Webapp5Class.GarbageClassifier5Class.Classify | webapp_5class.py:185-209 | no frame gives the error reply; with a frame, the reply is the gate's decision on the classified frame (accepted iff a non-empty label beats the threshold, otherwise low confidence iff a label exists, else no detection); the last prediction changes only when accepted |
| Webapp5Class.GarbageClassifier5Class.GetStatus | webapp_5class.py:211-222 | the reported class count and list are the current ones, the model flag is set iff a model is loaded, and the threshold is in range |
| Webapp5Class.GarbageClassifier5Class.SetConfidence | webapp_5class.py:224-230 | the stored threshold is the clamp of the given value, 0.5 when absent |
| CheckSetup.RequirementNameShape | check_setup.py:59 | each name is a prefix of the stripped line, holds neither `>=` nor `==`, and is the whole line iff the line holds neither |
| CheckSetup.RequirementsOfLines | check_setup.py:58-60 | one name per kept line, in file order |
| CheckSetup.SkippedLinesIgnored | check_setup.py:60 | blank and comment lines contribute nothing |
| CheckSetup.ImportNameCases | check_setup.py:63-74 | opencv-python→cv2, pillow→PIL, scikit-learn→sklearn, every other package under its own name |
| CheckSetup.MissingIff | check_setup.py:70-90 | a package is missing iff it is required and its import name fails; the list is an ordered subsequence of the requirements, and empty iff every import works |
| CheckSetup.CheckDependencies | check_setup.py:48-90 | no file gives the not-found result; otherwise all-good iff nothing is missing, the missing list is the specified one, and, among import outcomes of "imports" or `ImportError`, the check crashes iff some import name is empty or relative, at the first such requirement |
| CheckSetup.CheckImports | check_setup.py:70-90 | the loop collects the missing packages in order; it crashes iff some import name is empty or relative, and then on the first such requirement |
| CheckSetup.PythonVersionRejectsFourZero | check_setup.py:34 | the test as written rejects 4.0, which is newer than 3.8 |
| CheckSetup.PythonVersionTestsOnThree | check_setup.py:34 | on Python 3 the written and intended tests agree, and the written one never accepts a version below 3.8 |
| CheckSetup.PythonVersionAtLeastUpward | check_setup.py:32 | the intended test accepts every version newer than one it accepts |
| CheckSetup.CheckArduinoConnection | check_setup.py:144-174 | without pyserial false; otherwise the Arduino-like ports in order, true iff there is one |
| CheckSetup.ArduinoCheckIff | check_setup.py:164-170 | the check passes iff some port is Arduino-like |
| CheckSetup.CheckSystemRequirements | check_setup.py:205-230 | the probes only print: the check always passes |
| CheckSetup.CountTrue | check_setup.py:290 | the passed count is at most the total, and equal to it iff every check passed |
| CheckSetup.MainSummary | check_setup.py:290-300 | seven checks; the exit code is 0 iff all pass, otherwise 1 |
| CheckSetup.MainExitCodeIff | check_setup.py:276-300 | exit code 0 iff each of the seven named checks passed |
| CheckSetup.CountTrueCountsFalse | check_setup.py:290-291 | each failed check lowers the passed count by one |
| CheckArduinoConnection.CheckArduinoPorts | check_arduino_connection.py:10-30 | the loop keeps exactly the description-or-device matches, in order |
| CheckArduinoConnection.ArduinoPortsAreOrderedSelection | check_arduino_connection.py:12-30 | a port is kept iff it matches, and the result is a subsequence of the enumeration |
| CheckArduinoConnection.FirstConnectable | check_arduino_connection.py:51-70 | the first candidate that connects: all earlier ones fail, and None iff none connects |
| CheckArduinoConnection.AttemptsInOrder | check_arduino_connection.py:51-70 | candidates are tried in order, every one before the last failed, the last tried is the one that connected, and all are tried when none connects |
| CheckArduinoConnection.NextLast | check_arduino_connection.py:44-74 | after a pass `last_ports` is the current device set |
| CheckArduinoConnection.TryConnect | check_arduino_connection.py:51-70 | the loop with its `break` tries exactly the specified devices |
| CheckArduinoConnection.Pass | check_arduino_connection.py:43-74 | one pass prints the specified events and updates `last_ports` |
| CheckArduinoConnection.Monitor | check_arduino_connection.py:39-77 | the `while True` loop over given scans prints the specified events |
| CheckArduinoConnection.UnchangedScanIsSilent | check_arduino_connection.py:46 | a scan that finds the known devices prints nothing |
| CheckArduinoConnection.AtMostOneEventPerScan | check_arduino_connection.py:42-77 | at most one report per scan |
| CheckArduinoConnection.RepeatedScansReportOnce | check_arduino_connection.py:44-74 | identical consecutive scans report once at most, and not at all when their devices are already known |
| ArduinoDiagnostic.CheckPythonDependencies | arduino_diagnostic.py:22-50 | the loop collects the packages whose import fails, in list order, and returns true iff none does |
| ArduinoDiagnostic.MissingPackagesIff | arduino_diagnostic.py:27-50 | a package is missing iff it does not import; the list is an ordered selection of the three, and empty iff all three names import |
| ArduinoDiagnostic.DependencyCheckRejectsInstalledPyserial | arduino_diagnostic.py:27-41 | with pyserial, psutil and flask installed, pyserial is still reported missing and the connection test is skipped |
| ArduinoDiagnostic.MissingModulesIff | arduino_diagnostic.py:27-41 | the corrected check passes iff `serial`, `psutil` and `flask` import, so it passes on a complete install |
| ArduinoDiagnostic.ConnectionTestNeedsPyserialModule | arduino_diagnostic.py:308 | as written, no machine without a module called `pyserial` runs the connection test |
| ArduinoDiagnostic.CheckSerialPorts | arduino_diagnostic.py:52-87 | all enumerated ports are returned, each flagged by the five-keyword description test; none without pyserial |
| ArduinoDiagnostic.SerialErrorHintIff | arduino_diagnostic.py:191-196 | each hint is given iff its phrase occurs and no earlier phrase does |
| ArduinoDiagnostic.LowerCasePhraseGetsNoHint | arduino_diagnostic.py:191-196 | the phrases are case-sensitive: "permission denied" gets no hint |
| ArduinoDiagnostic.ReportFor | arduino_diagnostic.py:164-201 | a port is reported opened iff `serial.Serial` returned, and completed iff every step of the `try` went through; a hint follows only a `SerialException`, from any step, and is the one its message selects |
| ArduinoDiagnostic.OpenedThenDeniedReport | arduino_diagnostic.py:166-192 | a port that opens and then raises "Permission denied" is reported opened, not completed, with the permission hint |
| ArduinoDiagnostic.ConnectionReports | arduino_diagnostic.py:164-201 | one report per port, in order, each independent of the others |
| ArduinoDiagnostic.TestSerialConnection | arduino_diagnostic.py:152-204 | every port is tried; nothing when there are no ports or no pyserial |
| ArduinoDiagnostic.CheckRunningProcesses | arduino_diagnostic.py:206-238 | the loop flags exactly the specified processes, in table order; none without psutil |
| ArduinoDiagnostic.BlockingIff | arduino_diagnostic.py:214-224 | a process is flagged iff its name or its command line matches; it is listed once at most, and the list is a subsequence of the table |
| ArduinoDiagnostic.ArgumentKeywordFlags | arduino_diagnostic.py:221-223 | a keyword in any argument, in any case, flags the process |
| ArduinoDiagnostic.SummaryOf | arduino_diagnostic.py:316-321 | missing dependencies are reported first, and "looks good" iff the connection test ran |
| ArduinoDiagnostic.RunDiagnostic | arduino_diagnostic.py:295-321 | the missing list is the dependency check's, the ports and their Arduino-like flags are those listed, the connection tests run iff no package is missing and some port was listed, and the summary and flagged processes are those specified |
| ArduinoDiagnostic.ConnectionTestGate | arduino_diagnostic.py:304-309 | the connection test runs iff pyserial, psutil and flask all import by those names and a port was listed |
| FixArduinoConnection.CheckProcessesUsingPort | fix_arduino_connection.py:14-32 | the loop keeps exactly the processes whose name contains "arduino", in order |
| FixArduinoConnection.ArduinoProcessIff | fix_arduino_connection.py:19-22 | flagged iff the lower-cased name contains "arduino"; the command line is never looked at; every such process is also flagged by the diagnostic |
| FixArduinoConnection.FindArduinoPorts | fix_arduino_connection.py:34-59 | exactly the five-keyword description matches, in order |
| FixArduinoConnection.FoundPortsIff | fix_arduino_connection.py:41-59 | a port is found iff its description matches; the result is a subsequence of the enumeration |
| FixArduinoConnection.TestPortAccess | fix_arduino_connection.py:61-80 | true iff the open succeeds; a hint only after a `SerialException`, chosen from its message |
| FixArduinoConnection.AccessHintPriority | fix_arduino_connection.py:73-76 | "Access is denied" wins over "does not exist" |
| FixArduinoConnection.DrainLeavesSuffix | fix_arduino_connection.py:95-101 | the drain loop leaves an end of the start-up lines, just after a line that did not decode, and leaves nothing when all decode |
| FixArduinoConnection.DrainStartup | fix_arduino_connection.py:95-101 | the loop prints and leaves what the specification says |
| FixArduinoConnection.TestArduinoCommunication | fix_arduino_connection.py:82-131 | true iff open, write and close all succeed; a reply is only read after a successful write |
| FixArduinoConnection.CommunicationIgnoresReply | fix_arduino_connection.py:110-127 | the result does not depend on whether a reply came |
| FixArduinoConnection.UndecodableStartupLeavesLeftover | fix_arduino_connection.py:95-119 | after an undecodable start-up line, the next start-up line is taken for the reply |
| FixArduinoConnection.FirstReady | fix_arduino_connection.py:164-169 | the first working port whose communication test passes: all earlier ones fail, and None iff none passes |
| FixArduinoConnection.TryCommunication | fix_arduino_connection.py:164-169 | communication is tried in order up to the first success |
| FixArduinoConnection.Troubleshoot | fix_arduino_connection.py:133-169 | the flagged processes and the end of `main` (no Arduino, no accessible port, or the ports tried and the ready one) are those specified |
| FixArduinoConnection.ReadyPortIsAccessible | fix_arduino_connection.py:141-169 | the port declared ready is an enumerated description match that was accessible and passed the communication test |
| TestFlapServo.TestFlapMotion | test_flap_servo.py:18-86 | no port (or an empty device path) gives false without an open; otherwise true iff the open and the I/O succeed, whatever was read |
| TestFlapServo.EmptyDevicePathIsNotFound | test_flap_servo.py:22-23 | a matching port with an empty device path counts as not found |
| TestPositioningServo.SerialLink.constructor | test_positioning_servo.py:33 | an open connection with the given bytes waiting |
| TestPositioningServo.SerialLink.InWaiting | test_positioning_servo.py:37 | `in_waiting` is the number of bytes waiting |
| TestPositioningServo.SerialLink.Read | test_positioning_servo.py:38 | one read takes the first waiting byte |
| TestPositioningServo.SerialLink.DrainInput | test_positioning_servo.py:37-38 | the drain loop reads every waiting byte, in order, and leaves nothing waiting |
| TestPositioningServo.TestPositioning | test_positioning_servo.py:18-105 | no port gives false without connecting; otherwise the outcome of the run on the found device |
| TestPositioningServo.PositioningOutcomeOf | test_positioning_servo.py:32-105 | connected iff the open succeeds; the waiting bytes are cleared; a verdict iff a line was read, 'y' after strip and lower; true iff open, I/O, input and close succeed |
| TestPositioningServo.ResultIgnoresAnswer | test_positioning_servo.py:78-101 | the result does not depend on the operator's answer |
| TestPositioningServo.PaddedCapitalYes | test_positioning_servo.py:78-80 | " Y\n" counts as yes |
| TestPositioningServo.YesWordIsNo | test_positioning_servo.py:78-80 | "yes" counts as no |
| Create5ClassDataset.ClassMappingShape | create_5_class_dataset.py:25-38 | every target is one of the five classes, every class is hit, and only cardboard is renamed, to paper |
| Create5ClassDataset.MakeFolders | create_5_class_dataset.py:25-28 | ten folders, one for each (split, class) pair, and no other |
| Create5ClassDataset.SplitIndexIsFloor | create_5_class_dataset.py:62 | the split index is floor(3n/4), between 0 and n |
| Create5ClassDataset.CopyAll | create_5_class_dataset.py:67-75 | one copy per file, in order, into the given subset and class |
| Create5ClassDataset.ClassCopiesPartition | create_5_class_dataset.py:61-75 | train then val is the shuffled list: each file is copied once, into train iff its position is below the split index |
| Create5ClassDataset.CopyFiles | create_5_class_dataset.py:67-75 | the copy loop makes the specified copies |
| Create5ClassDataset.ProcessFolder | create_5_class_dataset.py:45-77 | a missing or imageless folder adds nothing; otherwise its split copies and its image count |
| Create5ClassDataset.CreateDataset | create_5_class_dataset.py:40-77 | the copies and `total_files` of the loop over `class_mapping` are those specified |
| Create5ClassDataset.TotalCountsCopies | create_5_class_dataset.py:42-77 | `total_files` is exactly the number of files copied |
| Create5ClassDataset.CopiesLandInClassFolders | create_5_class_dataset.py:64-75 | every copy lands in train or val under one of the five classes |
| Create5ClassDataset.ShuffledImagesAllCopied | create_5_class_dataset.py:52-75 | when the shuffle only reorders, a folder's copies are its images, each once |
| PrepareDataset.MappingShape | prepare_dataset.py:6-17 | every target is a created folder, glass and trash become other, cardboard becomes paper |
| PrepareDataset.MakeFolders | prepare_dataset.py:15-17 | for each class, its train and then its val folder |
| PrepareDataset.SplitIsFourFifths | prepare_dataset.py:24 | the split, taken as the exact product of n and the double 0.8 rounded down, is floor(4n/5) for every listing below 2^52 entries |
| PrepareDataset.SplitAtMost | prepare_dataset.py:24 | the split never exceeds the listing |
| PrepareDataset.FolderCopies | prepare_dataset.py:26-30 | one copy per listed file |
| PrepareDataset.FolderCopiesSplit | prepare_dataset.py:24-30 | choosing by position is copying the first `split` files to train and the rest to val, under their own names |
| PrepareDataset.CopyFolder | prepare_dataset.py:26-30 | the `enumerate` loop makes the specified copies |
| PrepareDataset.Prepare | prepare_dataset.py:20-30 | the loop over `mapping` makes the specified copies and stops at the first missing folder |
| PrepareDataset.PreparedIffAllFoldersExist | prepare_dataset.py:20-21 | the script finishes iff every source folder exists, and otherwise names a missing one |
| PrepareDataset.CopiesLandInClassFolders | prepare_dataset.py:26-30 | every copy lands in train or val under a created class folder |

## Left out

- Model inference and training are left out because they run foreign libraries over float tensors: `YOLO`, `model.train`, `classify_image`, `TRANSFORM`, all of `model.py` and `test_5class_model.py`. The classifier's output is an input (`ClassifyFrame`).
- `create_5_class_dataset.py` beyond the dataset builder is left out: training, testing, rewriting the web app's instructions, `main` with its `input`, and the final count of copied `.jpg` files. These are model runs, float statistics and printing.
- RAM and disk probes in `check_setup.py`: their float values only print, so they are parameters of `CheckSystemRequirements`.
- `check_project_files`, `check_model_files`, `check_camera_access` and `provide_next_steps` just test files and devices and print. Their results are inputs to `MainSummary`.
- Serial timing is left out: sleeps, the 15-second read windows, the idle timeout of the positioning test and the lines echoed there. Only whether opening, writing, reading and closing raise is modelled. The lines waiting before a drain loop are a finite list, so a device that never stops sending, and keeps such a loop running, is not modelled.
- Camera, OpenCV, Flask routing, JSON, the MJPEG generator and `get_available_cameras` are left out as I/O. The frame flip and `round(confidence, 3)` are left out as pixel and float formatting. Confidences are reals; only comparison and clamp are modelled.
- `install_dependencies.py`, `start_auto_arduino.py` and `quick_setup.py` are subprocess, pip and process-killing plumbing, and files written to disk. They are not part of this model.
- The permission and group probing, the system information and the solution text of `arduino_diagnostic.py` are OS queries and printing.
- Filesystem side effects are left out: `rmtree`, `mkdir`, `copy`, and one copy overwriting an earlier copy of the same name. Copies are recorded as a sequence, in the order they are made.
- `random.shuffle` and `random.seed` are left out: the shuffle is a parameter. `ShuffledImagesAllCopied` assumes it only reorders.
- `prepare_dataset.py` copies every `os.listdir` entry, directories included. The tree model has no directories among the entries.
- The VID/PID and manufacturer printing of the port listings is left out as display only.
- The `hasattr(self.model, 'names')` test is left out: a loaded model is given by its number of class names.
- `psutil.NoSuchProcess` and `AccessDenied` during the process scan are left out: the process table is a finished list.
- Strings.Lower: folds ASCII letters only; Python's `str.lower` also folds other letters. Every keyword and label compared here is ASCII.
- PrepareDataset.SplitIsFourFifths: the rounding of the float product `0.8 * n` to a double is not modelled. `SplitOf` takes the exact product of n and the double nearest 0.8. It agrees with Python's `int(0.8 * n)` only for n below 3 * 2^49; above that the rounded product can reach the next integer (n = 2251799813685201 gives one more than floor(4n/5)).
- Create5ClassDataset.SplitIndexIsFloor: the rounding of the float product `n * 0.75` to a double is not modelled. `SplitIndex` agrees with Python's `int(n * 0.75)` only for n up to 3002399751580332; n = 3002399751580333 gives 2251799813685250 there, one more than floor(3n/4).
- Create5ClassDataset.ImageFiles: the `glob` patterns are modelled as case-sensitive suffix tests, as on POSIX systems; on Windows `glob` ignores case.
- CheckSetup.CheckDependencies: an import either succeeds or raises `ImportError`; a module whose own top-level code raises another exception, which `except ImportError` does not catch, is not modelled. The same holds for CheckSetup.CheckImports and ArduinoDiagnostic.CheckPythonDependencies.
- Webapp5Class.GarbageClassifier5Class.LoadModel: the `KeyError` raised by a second 4-class rewrite is modelled, but the constructor can never reach it. From the initial tables, the first rewrite always succeeds.

## Findings

| source | as written | input that shows it | evidently intended | confidence | as-written member | corrected member |
|---|---|---|---|---|---|---|
| check_setup.py:34 | `major >= 3 and minor >= 8` | Python 4.0 is rejected | at least 3.8, ordered lexicographically | not executed | CheckSetup.PythonVersionRejectsFourZero | CheckSetup.PythonVersionAtLeastUpward |
| arduino_diagnostic.py:27-41 | `__import__('pyserial')` | pyserial, psutil and flask installed; pyserial is still reported missing, so the connection test never runs | import the module the distribution installs (`serial`) | not executed | ArduinoDiagnostic.DependencyCheckRejectsInstalledPyserial | ArduinoDiagnostic.MissingModulesIff |
