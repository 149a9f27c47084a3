# k-means over 2-D points: three runners, one model

This project models the k-means core of OSLab in Dafny. OSLab clusters 2-D points with k-means and has three runners for the same fixed-iteration algorithm:

- a single-threaded runner;
- a multi-threaded runner, which splits the point array into one contiguous range per pool thread;
- a multi-process runner, whose coordinator ships one range of the points to each worker process, collects the labels the workers send back and recomputes the centroids.

The model also covers the worker's clustering step, the `DataPoint` record and the driver's command-line scanner.

Modelling choices:

- A row `{x, y, cluster}` of the data matrix is the datatype `Clustering.Point`. The runners share the matrix with their caller, so it is an `array<Point>` that they update in place. A label write `point[2] = c` becomes `a[i] := a[i].(cluster := c)`.
- Centroids are an `array<Centroid>` field. Every update replaces it with a fresh array, as `centroids = newCentroids` does.
- Coordinates are exact reals and labels are integers. The nearest centroid is chosen by squared distance. Since the square root is monotone, this picks the same centroid as the Euclidean distance.
- The scan starts its running minimum at `Double.MAX_VALUE`, so the first centroid always wins its comparison. Here the first centroid is simply taken.
- The three runners repeat the same scan, update and summary code. Each of these is modelled once and called by all three classes:
  - `Clustering.FindClosestCluster`: the scan;
  - `Centroids.InitCentroids`: the seeding;
  - `Centroids.ComputeCentroids`: the update loops;
  - `Summary.BuildResult`: the summary.
- Each of these methods is proved against a specification function: `Nearest`, `Seeds`, `UpdatedCentroids` or `Render(Sizes(..))`. A run as a whole is proved against `Centroids.Iterate`, which applies `Step` (assignment pass, then update) a given number of times.
- The single- and multi-threaded runners both end in the state given by `Iterate`, so they agree. The multi-threaded partition pass equals one full pass because the ranges tile `[0, n)` (`MultiThread.PartitionedPassIsFullPass`).
- A worker's round trip in the multi-process runner is a function parameter: `Some(labels)` is its reply, and `None` is an exchange that threw. With a worker that replies with its slice's label column, the coordinator computes exactly `Iterate` (`MultiProcess.HonestRunIsSequential`). As written, the worker does not reply that way; see Findings.
- The cluster-size summary `"Cluster i+1: size\n"` is paired with a parser. Parsing a rendered summary gives back the k sizes, so the text carries exactly the histogram.

Two behaviours of the code are worth stating, and the model follows them:

- An empty cluster's centroid becomes (0, 0). `newCentroids` starts zeroed and only non-empty clusters are divided, so the centroid does not keep its previous position (src/main/java/org/example/kmeans/KMeansSingleThread.java:48-66).
- The worker reads a slice and a centroid set on every pass of its loop (src/main/java/org/example/kmeans/ProcessTask.java:18-20).

## Model

| member | source | states |
|---|---|---|
| Clustering.SqDistZero | src/main/java/org/example/kmeans/KMeansSingleThread.java:44-46 | the distance from a point to a centroid (also the worker's `calculateDistance`, ProcessTask.java:52-54) is never negative, and it is zero exactly when the point lies on the centroid |
| Clustering.FindClosestCluster | src/main/java/org/example/kmeans/KMeansSingleThread.java:26-35 | the running-minimum scan over the first k centroids (repeated as `findClosestCluster` at KMeansMultiThread.java:57-68 and ProcessTask.java:37-50) returns the nearest index: an index in [0, k) when k ≥ 1, no centroid strictly closer, every lower index strictly farther, and 0 when k = 0 |
| Clustering.NearestIsNearest | src/main/java/org/example/kmeans/KMeansSingleThread.java:26-35 | the scan's result satisfies the nearest-centroid property: an index in [0, k), minimal distance, and strictly closer than every lower index |
| Clustering.NearestUnique | src/main/java/org/example/kmeans/KMeansMultiThread.java:57-68 | exactly one index has the nearest-centroid property, and it is the scan's result |
| Clustering.TieGoesToLowest | src/main/java/org/example/kmeans/KMeansSingleThread.java:30-33 | of two equally near centroids, the higher index is never chosen, because the minimum is replaced only on a strict `<` |
| Clustering.NearestOnCentroid | src/main/java/org/example/kmeans/ProcessTask.java:41-54 | a point lying on centroid j gets a label no greater than j, and the centroid it gets is also at distance zero |
| Clustering.NearestIgnoresLabel | src/main/java/org/example/kmeans/ProcessTask.java:37-50 | two points with equal coordinates get the same label, whatever labels they had before |
| Clustering.RelabelSpec | src/main/java/org/example/kmeans/KMeansSingleThread.java:25-36 | the assignment pass keeps the number of points and every coordinate, gives every point its nearest centroid, and with k ≥ 1 leaves every label in [0, k) |
| Clustering.RelabelIgnoresLabels | src/main/java/org/example/kmeans/KMeansSingleThread.java:25-36 | the result of an assignment pass does not depend on the labels the points had before it |
| Centroids.InitCentroids | src/main/java/org/example/kmeans/KMeansMultiProcess.java:30-36 | requires k ≤ n; returns a fresh k-row matrix whose row i holds the x and y of point i |
| Centroids.ComputeCentroids | src/main/java/org/example/kmeans/KMeansSingleThread.java:48-68 | requires every label in [0, k); the two loops (sums and counts, then division) return a fresh matrix equal to the cluster means, with (0, 0) for an empty cluster |
| Centroids.UpdatedCentroidsSpec | src/main/java/org/example/kmeans/KMeansMultiProcess.java:106-125 | a non-empty cluster's new centroid times its size equals the cluster's coordinate sums (it is the mean); an empty cluster's centroid is (0, 0) |
| Centroids.CountSnoc | src/main/java/org/example/kmeans/KMeansSingleThread.java:53-58 | accumulating one more point adds 1 to its own cluster's count and its coordinates to that cluster's sums, and changes no other cluster |
| Centroids.EmptyClusterSums | src/main/java/org/example/kmeans/KMeansSingleThread.java:60-65 | a cluster with no points has zero sums, so the undivided row of an empty cluster is (0, 0) |
| Centroids.SingletonCluster | src/main/java/org/example/kmeans/KMeansSingleThread.java:53-65 | a cluster holding exactly one point has size 1 and is centred on that point |
| Centroids.SizesSumToLength | src/main/java/org/example/kmeans/KMeansMultiProcess.java:110-115 | when every label is in [0, k), the per-cluster counts add up to the number of points |
| Centroids.IterateSpec | src/main/java/org/example/kmeans/KMeansSingleThread.java:23-42 | iterating never moves a point or changes the number of points, and after at least one iteration with k ≥ 1 every label is in [0, k) |
| Centroids.StableIsFixedPoint | src/main/java/org/example/kmeans/KMeansSingleThread.java:23-42 | once an assignment pass changes no label and the centroids are the means of those labels, one more iteration changes neither points nor centroids, so the summary stays the same |
| Centroids.EveryPointOwnCluster | src/main/java/org/example/kmeans/KMeansSingleThread.java:11-36 | with k = n pairwise distinct points, seeding and one pass give point i label i, and every cluster has exactly one point |
| Partition.TaskSizesFit | src/main/java/org/example/kmeans/KMeansMultiThread.java:28-31 | p whole task sizes fit in n, and the remainder left for the last range is less than p |
| Partition.RangesContiguous | src/main/java/org/example/kmeans/KMeansMultiThread.java:28-31 | the first range starts at 0, each range ends where the next starts, the last ends at n, and no range runs backwards or past n |
| Partition.RangesDisjoint | src/main/java/org/example/kmeans/KMeansMultiThread.java:28-31 | an earlier worker's range ends no later than a later worker's range starts |
| Partition.OwnerIsUnique | src/main/java/org/example/kmeans/KMeansMultiThread.java:28-31 | every index in [0, n) lies in exactly one worker's range |
| Partition.TenPointsThreeWorkers | src/main/java/org/example/kmeans/KMeansMultiThread.java:28-31 | ten points over three workers give [0, 3), [3, 6) and [6, 10); the last range absorbs the remainder |
| Partition.MoreWorkersThanPoints | src/main/java/org/example/kmeans/KMeansMultiThread.java:28-31 | with more workers than points the task size is 0, every range but the last is empty, and the last is [0, n) |
| Decimal.DigitsValueOfNatToString | src/main/java/org/example/kmeans/KMeansSingleThread.java:79 | the decimal text appended for a count reads back as that count |
| Summary.BuildResult | src/main/java/org/example/kmeans/KMeansSingleThread.java:70-82 | requires every label in [0, k); the histogram loop and the line loop (repeated at KMeansMultiThread.java:91-103 and KMeansMultiProcess.java:134-146) return the rendering of the k cluster sizes |
| Summary.ParseRender | src/main/java/org/example/kmeans/KMeansSingleThread.java:78-80 | the k lines `"Cluster i+1: size\n"` parse back to exactly the k sizes, in cluster order |
| Summary.SummaryAccountsForAllPoints | src/main/java/org/example/kmeans/KMeansMultiThread.java:91-103 | the summary has one line per cluster index 1..k, and its sizes add up to the number of points |
| ProcessTask.PerformClustering | src/main/java/org/example/kmeans/ProcessTask.java:30-35 | relabels every point of the slice in place with its nearest centroid and returns the same array; the length and the coordinates are kept |
| SingleThread.KMeansSingleThread.constructor | src/main/java/org/example/kmeans/KMeansSingleThread.java:11-21 | requires k ≤ n; centroid i starts at the x and y of point i |
| SingleThread.KMeansSingleThread.AssignAll | src/main/java/org/example/kmeans/KMeansSingleThread.java:25-36 | the assignment loop leaves the points equal to one full assignment pass over them |
| SingleThread.KMeansSingleThread.UpdateCentroids | src/main/java/org/example/kmeans/KMeansSingleThread.java:48-68 | requires every label in [0, k); the centroid field becomes a fresh matrix of the cluster means |
| SingleThread.KMeansSingleThread.Run | src/main/java/org/example/kmeans/KMeansSingleThread.java:23-42 | after `iterations` rounds (none if it is not positive), points and centroids are `Iterate` of the initial ones, and the result is the summary of the final labels |
| MultiThread.PartitionedPassIsFullPass | src/main/java/org/example/kmeans/KMeansMultiThread.java:28-32 | relabelling every range of the partition gives the same points as one full pass with the same centroids |
| MultiThread.KMeansMultiThread.constructor | src/main/java/org/example/kmeans/KMeansMultiThread.java:11-21 | requires k ≤ n; centroid i starts at the x and y of point i |
| MultiThread.KMeansMultiThread.AssignPointsToClusters | src/main/java/org/example/kmeans/KMeansMultiThread.java:49-55 | relabels exactly the points with index in [start, end); every coordinate and every other point stays as it was |
| MultiThread.KMeansMultiThread.AssignPartitioned | src/main/java/org/example/kmeans/KMeansMultiThread.java:28-32 | requires threads ≥ 1; the per-range loop leaves the points equal to one full assignment pass |
| MultiThread.KMeansMultiThread.UpdateCentroids | src/main/java/org/example/kmeans/KMeansMultiThread.java:70-89 | requires every label in [0, k); the centroid field becomes a fresh matrix of the cluster means |
| MultiThread.KMeansMultiThread.Run | src/main/java/org/example/kmeans/KMeansMultiThread.java:23-46 | requires threads ≥ 1; ends in the same state as the single-threaded run (`Iterate`) and returns the summary of the final labels |
| MultiProcess.HandlersTile | src/main/java/org/example/kmeans/KMeansMultiProcess.java:66-75 | the handler ranges fit in [0, n); the first starts at 0, each starts where the previous ends, and the last ends at n |
| MultiProcess.KMeansMultiProcess.constructor | src/main/java/org/example/kmeans/KMeansMultiProcess.java:24-28 | requires k ≤ n; the centroids are the seeds and nothing has been sent yet |
| MultiProcess.KMeansMultiProcess.CreateProcessHandlers | src/main/java/org/example/kmeans/KMeansMultiProcess.java:66-75 | requires processes ≥ 1; handler i gets the i-th range of the partition |
| MultiProcess.KMeansMultiProcess.GetDataSlice | src/main/java/org/example/kmeans/KMeansMultiProcess.java:102-104 | the slice has length end - start, and its element i is point start + i |
| MultiProcess.KMeansMultiProcess.MergeResponse | src/main/java/org/example/kmeans/KMeansMultiProcess.java:90-92 | label j becomes `processedData[j - startIdx]` for j in the range, as far as the reply reaches; it reports whether the reply covered the whole range; coordinates and points outside the range are unchanged |
| MultiProcess.MergeAllAt | src/main/java/org/example/kmeans/KMeansMultiProcess.java:90-92 | after any sequence of merges, a point's label depends only on its owning handler's reply, so every label is written by at most one handler |
| MultiProcess.MergeOrderIrrelevant | src/main/java/org/example/kmeans/KMeansMultiProcess.java:77-100 | merging the same replies in any two orders that list the same handlers gives the same points |
| MultiProcess.MergeAllInRange | src/main/java/org/example/kmeans/KMeansMultiProcess.java:90-92 | merging replies whose labels are in [0, k) keeps every label in [0, k) |
| MultiProcess.MergeEveryHonestReply | src/main/java/org/example/kmeans/KMeansMultiProcess.java:77-100 | merging, in any order, the replies of workers that relabel their slices gives one full assignment pass over all points |
| MultiProcess.TrafficSpec | src/main/java/org/example/kmeans/KMeansMultiProcess.java:84-88 | over r iterations with p workers, each worker gets the centroids once per iteration and its slice only in iteration 0; the r·p + p messages are all there is |
| MultiProcess.KMeansMultiProcess.ClusterProcess | src/main/java/org/example/kmeans/KMeansMultiProcess.java:77-100 | cuts the slices in the first iteration, logs the messages of the round, and merges every worker's reply in handler order |
| MultiProcess.KMeansMultiProcess.UpdateCentroids | src/main/java/org/example/kmeans/KMeansMultiProcess.java:106-125 | requires every label in [0, k); the centroid field becomes a fresh matrix of the cluster means, and one more update is counted |
| MultiProcess.KMeansMultiProcess.RunIteration | src/main/java/org/example/kmeans/KMeansMultiProcess.java:52-60 | one exchange-merge-update round keeps every label in [0, k), takes the state one `ProcessStep` further (so iteration `i` ends in `ProcessIterate` of `i + 1` rounds), leaves every worker holding the slices cut from the initial points, and extends the message log by exactly that iteration's round |
| MultiProcess.KMeansMultiProcess.Run | src/main/java/org/example/kmeans/KMeansMultiProcess.java:47-64 | performs exactly `iterations` updates, sends the slices only in the first iteration, ends in `ProcessIterate` of the initial state, and returns the summary of the final labels |
| MultiProcess.HonestRunIsSequential | src/main/java/org/example/kmeans/KMeansMultiProcess.java:47-64 | with workers that reply with their slice's labels, the coordinator's iterations equal the single-threaded `Iterate` |
| MultiProcess.HonestRepliesInRange | src/main/java/org/example/kmeans/ProcessTask.java:22-23 | with k ≥ 1, a worker that replies with its relabelled slice's labels only sends cluster indices in [0, k), so it meets the precondition of the multi-process `Run` |
| MultiProcess.LostRepliesKeepLabels | src/main/java/org/example/kmeans/KMeansMultiProcess.java:176-178 | when every exchange throws, the labels never change, however many iterations run |
| MultiProcess.AsWrittenSummary | src/main/java/org/example/kmeans/KMeansMultiProcess.java:176-178 | when every exchange throws and the points were read with label 0, the summary puts every point in cluster 1 |
| DataPoints.DataPoint.constructor | src/main/java/org/example/kmeans/DataPoint.java:8-12 | stores x and y and sets the cluster to -1, meaning unassigned |
| DataPoints.DataPoint.GetX | src/main/java/org/example/kmeans/DataPoint.java:14-16 | returns the current x and changes nothing |
| DataPoints.DataPoint.SetX | src/main/java/org/example/kmeans/DataPoint.java:18-20 | x becomes the given value; y and the cluster are unchanged |
| DataPoints.DataPoint.GetY | src/main/java/org/example/kmeans/DataPoint.java:22-24 | returns the current y and changes nothing |
| DataPoints.DataPoint.SetY | src/main/java/org/example/kmeans/DataPoint.java:26-28 | y becomes the given value; x and the cluster are unchanged |
| DataPoints.DataPoint.GetCluster | src/main/java/org/example/kmeans/DataPoint.java:30-32 | returns the current cluster and changes nothing |
| DataPoints.DataPoint.SetCluster | src/main/java/org/example/kmeans/DataPoint.java:34-36 | the cluster becomes the given value; x and y are unchanged |
| CommandLine.ParseIntOfIntToString | src/main/java/org/example/KMeansClustering.java:46-59 | every 32-bit int written in decimal is read back as itself by the `Integer.parseInt` model |
| CommandLine.ParseIntEdges | src/main/java/org/example/KMeansClustering.java:46-59 | the empty text, a lone sign and text with a non-digit are not integers; "+7" and "-0" are |
| CommandLine.SetOption | src/main/java/org/example/KMeansClustering.java:39-60 | a flag sets its own option to its value, read as an int for a numeric flag; a non-integer value fails with that token; every other option is unchanged |
| CommandLine.LastOccurrenceWins | src/main/java/org/example/KMeansClustering.java:38-65 | a flag given again after a complete argument list overrides the earlier value: the last occurrence wins |
| CommandLine.FlagWithoutValue | src/main/java/org/example/KMeansClustering.java:40-59 | a recognised flag as the last argument fails with a missing value |
| CommandLine.FlagConsumesNextToken | src/main/java/org/example/KMeansClustering.java:38-59 | the argument after a flag is its value even when it looks like a flag, and scanning resumes after it |
| CommandLine.UnknownTokenIgnored | src/main/java/org/example/KMeansClustering.java:61-62 | an unrecognised argument between complete options changes no option |
| CommandLine.UnmentionedKeepsValue | src/main/java/org/example/KMeansClustering.java:38-65 | an option whose flag does not occur among the arguments keeps its starting value |
| CommandLine.ParseToArgs | src/main/java/org/example/KMeansClustering.java:36-66 | any options whose numbers are 32-bit ints can be written as an argument list that the scanner reads back exactly |
| CommandLine.CommandLineOptions.constructor | src/main/java/org/example/KMeansClustering.java:157-165 | the defaults: mode "", dataPath "", clusters 5, threads 8, processes 8, dataPoints 0, iterations 10 |
| CommandLine.ParseCommandLineArgs | src/main/java/org/example/KMeansClustering.java:36-66 | the index-advancing loop fails exactly when the scanner specification does, with the same error, and otherwise yields a fresh record holding the scanner's options |

## Left out

- Sockets and processes: the `ProcessTaskHandler` transport (spawn, accept, object streams), `initServerSockets`, `closeResources` and the worker's `main` loop are I/O. A worker's round trip is a function parameter of `Run`.
- The worker's reading order: the worker reads a slice and a centroid set on every pass, but the coordinator sends the slice only in the first iteration. From the second iteration on, the worker takes the centroids for a slice and waits for a second message, and the coordinator waits for its reply. This blocking is not modelled: the model's worker keeps the slice it got in iteration 0.
- Concurrency: the thread pools, `submit`, `awaitTermination`, pool re-creation and the `CountDownLatch` barrier are not modelled. The ranges and the handlers are processed one after another in index order. For the multi-process merge, the order is shown not to matter (`MultiProcess.MergeOrderIrrelevant`).
- MultiProcess.KMeansMultiProcess.ClusterProcess: all slices are cut before any reply is merged. In the source, each task cuts its own slice when it runs, possibly after other handlers' merges. Those merges touch only other handlers' disjoint ranges, but the model does not prove that the two orders agree.
- MultiProcess.KMeansMultiProcess.Run: requires every worker reply to hold labels in [0, k). In the source, a label outside that range makes `updateCentroids` throw out of `run`; the model does not trace that exception.
- SingleThread.KMeansSingleThread.Run: requires at least one centroid when points are to be assigned. With k = 0 and some points, the source's update throws an `ArrayIndexOutOfBoundsException`; the model does not trace that exception.
- MultiThread.KMeansMultiThread.Run: requires at least one centroid when points are to be assigned, for the same reason as the single-threaded run; the `ArrayIndexOutOfBoundsException` is not traced. It also requires threads ≥ 1; with fewer, `Executors.newFixedThreadPool` throws `IllegalArgumentException` (KMeansMultiThread.java:25), which is not traced.
- MultiThread.KMeansMultiThread.AssignPartitioned: requires threads ≥ 1; the `IllegalArgumentException` of `Executors.newFixedThreadPool` for fewer threads is not traced.
- MultiProcess.KMeansMultiProcess.CreateProcessHandlers: requires processes ≥ 1. With 0 processes, `dataPoints.length / processes` throws `ArithmeticException` (KMeansMultiProcess.java:68), and this is not traced.
- MultiProcess.KMeansMultiProcess.Run: also requires processes ≥ 1; the `IllegalArgumentException` of `Executors.newFixedThreadPool` (KMeansMultiProcess.java:49) for fewer processes is not traced.
- SingleThread.KMeansSingleThread.constructor: takes k as a `nat` and requires k ≤ n. A negative k makes `new double[k][2]` throw `NegativeArraySizeException` (KMeansSingleThread.java:14), and k > n makes the seeding loop throw `ArrayIndexOutOfBoundsException`; neither is traced.
- MultiThread.KMeansMultiThread.constructor: takes k as a `nat` and requires k ≤ n; the `NegativeArraySizeException` for a negative k (KMeansMultiThread.java:15) and the `ArrayIndexOutOfBoundsException` of the seeding loop for k > n are not traced.
- MultiProcess.KMeansMultiProcess.constructor: takes k as a `nat` and requires k ≤ n; the `NegativeArraySizeException` for a negative k (KMeansMultiProcess.java:31) and the `ArrayIndexOutOfBoundsException` of the seeding loop for k > n are not traced.
- Centroids.InitCentroids: takes k as a `nat` and requires k ≤ n, so the same two exceptions are not traced.
- Floating point: `Math.sqrt`, `Math.pow`, the `Double.MAX_VALUE` sentinel, IEEE rounding of the means, and NaN or infinite coordinates are not modelled. Coordinates are exact reals, and the distance is squared.
- The label column is a `double` cast with `(int)` in the source. It is an `int` here.
- Aliasing: `Arrays.copyOfRange` and the rows of the data matrix share inner arrays in the source. Points are values here, so a slice is a copy. This is harmless, because slices are serialised before a worker sees them.
- MultiProcess.KMeansMultiProcess.GetDataSlice: requires end ≤ n. `Arrays.copyOfRange` would pad a longer slice, but the handlers never ask for one.
- CommandLine.ParseInt: accepts only ASCII digits. `Integer.parseInt` also accepts other Unicode decimal digits.
- Command-line errors: a missing value and a non-integer value throw out of `main` in the source. Here they are `Failure` values of the scanner.
- Everything around the core: data generation, reading the data file, the timing and printing wrappers, and `main`'s mode dispatch are file and console I/O.

## Findings

| source | as written | input that shows it | evidently intended | confidence | as-written member | corrected member |
|---|---|---|---|---|---|---|
| src/main/java/org/example/kmeans/KMeansMultiProcess.java:176-178 | The coordinator casts every reply to `double[]`. The worker writes back its relabelled `double[][]` slice (src/main/java/org/example/kmeans/ProcessTask.java:22-23). The cast throws; the exception is printed and swallowed (KMeansMultiProcess.java:93-94), so no reply is ever merged. | Any data file (labels read as 0), k ≥ 1, iterations = 1: the summary is "Cluster 1: n" and 0 for every other cluster, whatever the points. | The reply is the label column of the worker's relabelled slice, and the coordinator ends where the single-threaded runner ends. | not executed; high (Java deserialisation keeps the runtime array type) | MultiProcess.AsWrittenSummary | MultiProcess.HonestRunIsSequential |
